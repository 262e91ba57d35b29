/** Values every handler of the app shares: optional JavaScript values, the
    truthiness tests the handlers apply to strings, template-literal rendering,
    thrown errors and HTTP replies. */
module Common {

  /** A JavaScript value that may be `undefined`. */
  datatype Option<+T> = None | Some(value: T)

  /** A string field as JavaScript tests it: truthy iff present and non-empty. */
  predicate Truthy(o: Option<string>) {
    o.Some? && o.value != ""
  }

  /** `o || fallback` on a string field that may be undefined. */
  function OrElse(o: Option<string>, fallback: string): string {
    if Truthy(o) then o.value else fallback
  }

  /** `${o}` inside a template literal: an undefined value prints as
      "undefined". */
  function Template(o: Option<string>): string {
    if o.Some? then o.value else "undefined"
  }

  /** What a `catch` clause receives. */
  datatype Thrown = ErrorObject(message: string) | OtherValue

  /** `error instanceof Error ? error.message : "Unknown error"` */
  function ErrorMessage(e: Thrown): string {
    match e
    case ErrorObject(m) => m
    case OtherValue => "Unknown error"
  }

  /** The status code and JSON body a route handler answers with. */
  datatype Reply<+B> = Reply(status: int, body: B)

  /** The position of the first element of `s` that satisfies `p`. */
  function FindFirstIndex<T>(s: seq<T>, p: T -> bool): (r: Option<nat>)
    ensures r.Some? ==> r.value < |s| && p(s[r.value])
    ensures r.Some? ==> forall j :: 0 <= j < r.value ==> !p(s[j])
    ensures r.None? ==> forall j :: 0 <= j < |s| ==> !p(s[j])
  {
    if |s| == 0 then None
    else if p(s[0]) then Some(0)
    else match FindFirstIndex(s[1..], p)
      case None => None
      case Some(i) => Some(i + 1)
  }
}
