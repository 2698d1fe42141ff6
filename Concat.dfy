/**
 * Facts about where the parts of a concatenated string sit in the whole. The
 * relay builds its texts by concatenation; these lemmas let its proofs read a
 * part back off a text without unfolding the text's literal pieces.
 */
module Concat {

  /** A string is a prefix of its extensions, and what follows it is the extension. */
  lemma PrefixOfAppend(a: string, b: string)
    ensures a <= a + b && (a + b)[|a|..] == b
  {
  }

  /** The last `n` characters of a concatenation are those of its second part. */
  lemma SuffixOfAppend(a: string, b: string, n: nat)
    requires n <= |b|
    ensures (a + b)[|a + b| - n..] == b[|b| - n..]
  {
  }

  /** A suffix of a suffix is a suffix. */
  lemma SuffixOfSuffix(t: string, f: string, c: string)
    requires |f| <= |t| && t[|t| - |f|..] == f
    requires |c| <= |f| && f[|f| - |c|..] == c
    ensures |c| <= |t| && t[|t| - |c|..] == c
  {
    assert t[|t| - |c|..] == t[|t| - |f|..][|f| - |c|..];
  }

  /** Appending five pieces one by one is appending their concatenation. */
  lemma AppendFive(t: string, a: string, b: string, c: string, d: string, e: string)
    ensures t + a + b + c + d + e == t + (a + b + c + d + e)
  {
  }

  /** Appending two pieces one by one is appending their concatenation. */
  lemma AppendTwo(t: string, a: string, b: string)
    ensures t + a + b == t + (a + b)
  {
  }

  /** Slicing a concatenation inside its first part, or at its end. */
  lemma SliceOfConcat(a: string, b: string, c: string, i: nat, j: nat)
    requires i <= j <= |a|
    ensures (a + b + c)[i..j] == a[i..j]
    ensures (a + b + c)[|a + b + c| - |c|..] == c
  {
  }

  /** Where the first, third and sixth of seven pieces, grouped as `h + (a + m + b) + (c + r + d)`, sit in the whole. */
  lemma SevenPieces(h: string, a: string, m: string, b: string, c: string, r: string, d: string)
    ensures var o := h + (a + m + b) + (c + r + d);
      var at := |h| + |a| + |m| + |b| + |c|;
      && h <= o
      && at + |r| <= |o|
      && o[|h| + |a|..|h| + |a| + |m|] == m
      && o[at..at + |r|] == r
  {
    var o := h + (a + m + b) + (c + r + d);
    assert o == (h + a) + m + (b + c + r + d);
    assert o == (h + a + m + b + c) + r + d;
  }

  /**
   * In `a + b + f`, where `f` opens with `p`, the heading `h` follows `a` exactly
   * when the middle part is present and opens with `h`; it then sits there whole.
   */
  lemma HeadedMiddleIff(a: string, b: string, f: string, h: string, p: string, present: bool)
    requires present ==> h <= b
    requires !present ==> b == []
    requires h != [] && p != [] && p <= f && p[0] != h[0]
    ensures present <==> (|a| + |h| <= |a + b + f| && (a + b + f)[|a|..|a| + |h|] == h)
    ensures present ==> |a| + |b| <= |a + b + f| && (a + b + f)[|a|..|a| + |b|] == b
  {
    var t := a + b + f;
    if present {
      assert t[|a|..|a| + |b|] == b;
      assert t[|a|..|a| + |h|] == b[..|h|];
    } else if |a| + |h| <= |t| {
      assert t[|a|..|a| + |h|][0] == f[0] == p[0];
    }
  }

  /** Appending four pieces one by one is appending their concatenation. */
  lemma AppendFour(t: string, a: string, b: string, c: string, d: string)
    ensures t + a + b + c + d == t + (a + b + c + d)
  {
  }

  /** The first `n` characters of the middle part of a concatenation, read off the whole. */
  lemma SliceOfMiddle(a: string, b: string, c: string, n: nat)
    requires n <= |b|
    ensures |a| + n <= |a + b + c| && (a + b + c)[|a|..|a| + n] == b[..n]
  {
  }

  /** A concatenation of three parts opens with the first and closes with the last. */
  lemma OpensAndCloses(a: string, b: string, c: string)
    ensures a <= a + b + c && |c| <= |a + b + c| && (a + b + c)[|a + b + c| - |c|..] == c
  {
    assert a + b + c == a + (b + c);
  }

  /** Where the second, fourth and sixth of seven concatenated pieces sit in the whole. */
  lemma FiveHoles(p1: string, n: string, p2: string, i: string, p3: string, e: string, p4: string)
    ensures var r := p1 + n + p2 + i + p3 + e + p4;
      var at := |p1 + n + p2 + i + p3|;
      && |p1| + |n| <= |r| && r[|p1|..|p1| + |n|] == n
      && |p1| + |n| + |p2| + |i| <= |r| && r[|p1| + |n| + |p2|..|p1| + |n| + |p2| + |i|] == i
      && at + |e| <= |r| && r[at..at + |e|] == e
  {
    var r := p1 + n + p2 + i + p3 + e + p4;
    assert r == p1 + n + (p2 + i + p3 + e + p4);
    assert r == (p1 + n + p2) + i + (p3 + e + p4);
    assert r == (p1 + n + p2 + i + p3) + e + p4;
  }
}
