/**
 * The cross-origin allow-list: the `ALLOWED_ORIGINS` setting parsed into a list
 * of origins, and the decision the CORS `origin` callback makes for a request.
 */
module Origins {
  import opened Outcomes
  import opened JsStrings
  import opened JsValues

  /**
   * `ALLOWED_ORIGINS.split(',').map(trim).filter(Boolean)`: every entry is
   * non-empty, has no surrounding whitespace and holds no comma.
   */
  function ParseAllowedOrigins(setting: string): (origins: seq<string>)
    ensures forall i :: 0 <= i < |origins| ==> origins[i] != [] && IsTrimmed(origins[i]) && ',' !in origins[i]
  {
    var trimmed := TrimAll(Split(setting, ','));
    var origins := DropEmpty(trimmed);
    TrimmedPiecesClean(Split(setting, ','), ',');
    forall i | 0 <= i < |origins|
      ensures origins[i] != [] && IsTrimmed(origins[i]) && ',' !in origins[i]
    {
      assert origins[i] in trimmed;
    }
    origins
  }

  /** Trimmed pieces free of the separator stay free of it, and are trimmed. */
  lemma TrimmedPiecesClean(pieces: seq<string>, sep: char)
    requires forall i :: 0 <= i < |pieces| ==> sep !in pieces[i]
    ensures forall x :: x in TrimAll(pieces) ==> IsTrimmed(x) && sep !in x
  {
    var trimmed := TrimAll(pieces);
    forall x | x in trimmed ensures IsTrimmed(x) && sep !in x {
      var j :| 0 <= j < |trimmed| && trimmed[j] == x;
      TrimKeepsAbsence(pieces[j], sep);
    }
  }

  /** An origin is in the list exactly when some comma-separated piece of the setting trims to it. */
  lemma AllowedOriginsMembership(setting: string, origin: string)
    ensures origin in ParseAllowedOrigins(setting) <==>
      origin != [] && exists p :: p in Split(setting, ',') && Trim(p) == origin
  {
    if origin in ParseAllowedOrigins(setting) {
      ListedOriginHasPiece(setting, origin);
    } else if origin != [] {
      forall p | p in Split(setting, ',') ensures Trim(p) != origin {
        if Trim(p) == origin {
          PieceGivesListedOrigin(setting, p);
        }
      }
    }
  }

  lemma ListedOriginHasPiece(setting: string, origin: string)
    requires origin in ParseAllowedOrigins(setting)
    ensures exists p :: p in Split(setting, ',') && Trim(p) == origin
  {
    var pieces := Split(setting, ',');
    var trimmed := TrimAll(pieces);
    assert origin in trimmed;
    var j :| 0 <= j < |trimmed| && trimmed[j] == origin;
    assert pieces[j] in pieces && Trim(pieces[j]) == origin;
  }

  lemma PieceGivesListedOrigin(setting: string, piece: string)
    requires piece in Split(setting, ',') && Trim(piece) != []
    ensures Trim(piece) in ParseAllowedOrigins(setting)
  {
    var pieces := Split(setting, ',');
    var j :| 0 <= j < |pieces| && pieces[j] == piece;
    assert TrimAll(pieces)[j] == Trim(piece);
  }

  /** The list keeps the pieces' order, and every copy of each non-blank piece. */
  lemma AllowedOriginsKeepOrder(setting: string)
    ensures IsSubsequence(ParseAllowedOrigins(setting), TrimAll(Split(setting, ',')))
    ensures forall o :: o != [] ==>
      multiset(ParseAllowedOrigins(setting))[o] == multiset(TrimAll(Split(setting, ',')))[o]
  {
    DropEmptyKeepsOrder(TrimAll(Split(setting, ',')));
  }

  /** The list is empty exactly when every piece of the setting is blank (an unset setting is ""). */
  lemma AllowedOriginsEmpty(setting: string)
    ensures ParseAllowedOrigins(setting) == [] <==> forall p :: p in Split(setting, ',') ==> AllWhitespace(p)
  {
    var origins := ParseAllowedOrigins(setting);
    var pieces := Split(setting, ',');
    if origins == [] {
      forall p | p in pieces ensures AllWhitespace(p) {
        AllowedOriginsMembership(setting, Trim(p));
        TrimBlank(p);
      }
    } else {
      AllowedOriginsMembership(setting, origins[0]);
      var p :| p in pieces && Trim(p) == origins[0];
      TrimBlank(p);
    }
  }

  /** What the CORS `origin` callback answers: accept (echoing the origin) or fail. */
  datatype CorsDecision = Accept(origin: Option<string>) | Reject(reason: string)

  const CORS_REJECTION := "Origin not allowed by CORS"

  /** `!origin`: no Origin header, or an empty one. */
  predicate IsFalsyOrigin(origin: Option<string>)
    ensures IsFalsyOrigin(origin) <==> !Truthy(FromOption(origin))
  {
    origin.None? || origin.value == []
  }

  /** The callback's test: no origin, an empty allow-list, or an exact match. */
  predicate OriginAllowed(allowed: seq<string>, origin: Option<string>)
    ensures IsFalsyOrigin(origin) || allowed == [] ==> OriginAllowed(allowed, origin)
    ensures !IsFalsyOrigin(origin) && allowed != [] ==> (OriginAllowed(allowed, origin) <==> origin.value in allowed)
  {
    IsFalsyOrigin(origin) || |allowed| == 0 || origin.value in allowed
  }

  /**
   * The accept/reject decision stated against the raw setting: a request is
   * accepted exactly when it has no origin, when no piece of the setting is
   * non-blank, or when some piece trims to exactly the request's origin.
   */
  lemma OriginAllowedBySetting(setting: string, origin: Option<string>)
    ensures OriginAllowed(ParseAllowedOrigins(setting), origin) <==>
      IsFalsyOrigin(origin)
      || (forall p :: p in Split(setting, ',') ==> AllWhitespace(p))
      || (exists p :: p in Split(setting, ',') && Trim(p) == origin.value)
  {
    AllowedOriginsEmpty(setting);
    if !IsFalsyOrigin(origin) {
      AllowedOriginsMembership(setting, origin.value);
    }
  }

  /** Entries are trimmed, so an origin with surrounding whitespace never matches a non-empty list. */
  lemma PaddedOriginNeverMatches(setting: string, origin: string)
    requires ParseAllowedOrigins(setting) != []
    requires origin != [] && !IsTrimmed(origin)
    ensures !OriginAllowed(ParseAllowedOrigins(setting), Some(origin))
  {
  }
}
