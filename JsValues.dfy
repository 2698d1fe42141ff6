/**
 * The fields of a parsed JSON request body as the relay reads them: whether a
 * field is truthy, how it is rendered inside a template literal, and the
 * `value || fallback` defaulting the handlers use.
 */
module JsValues {
  import opened Outcomes

  /** A property read from a request body. */
  datatype Value =
    | Undefined                              // the property is missing
    | Str(s: string)                         // a JSON string
    | Other(rendered: string, truthy: bool)  // any other JSON value: its `${...}` text and its truthiness

  /** JavaScript truthiness: a missing property and the empty string are falsy. */
  predicate Truthy(v: Value)
    ensures v.Undefined? ==> !Truthy(v)
    ensures v.Str? ==> (Truthy(v) <==> v.s != [])
  {
    match v
    case Undefined => false
    case Str(s) => s != []
    case Other(_, t) => t
  }

  /** What `${v}` puts into a template literal. */
  function Render(v: Value): (text: string)
    ensures v.Str? ==> text == v.s
    ensures v.Undefined? ==> text == "undefined"
  {
    match v
    case Undefined => "undefined"
    case Str(s) => s
    case Other(r, _) => r
  }

  /** `${v || fallback}`: the value when it is truthy, the fallback otherwise. */
  function OrElse(v: Value, fallback: string): (text: string)
    ensures Truthy(v) ==> text == Render(v)
    ensures !Truthy(v) ==> text == fallback
    ensures fallback != [] && !v.Other? ==> text != []
  {
    if Truthy(v) then Render(v) else fallback
  }

  /** An optional string as JavaScript sees it: an absent one is `undefined`. */
  function FromOption(o: Option<string>): Value {
    if o.Some? then Str(o.value) else Undefined
  }
}
