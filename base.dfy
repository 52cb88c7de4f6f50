/** Values shared by every part of the model: optional and failing results,
    the faults the JavaScript code throws, the text a template literal prints
    for a possibly undefined value, and the ASCII part of lower-casing. */
module Base {

  /** The render props and any data handed to a page: an arbitrary structured
      value that the pipeline only passes along. */
  type Props(==)

  /** A JavaScript value that may be `undefined`. */
  datatype Option<+T> = None | Some(value: T) {
    /** `x ?? d` */
    function GetOr(default: T): T {
      match this
      case Some(v) => v
      case None => default
    }
  }

  /** The TypeErrors and other faults the modelled code can throw. */
  datatype Fault =
    | UndefinedName   // `undefined.toLocaleLowerCase()` on a component without a name
    | MissingRoot     // `body.root.class` read while `body.root` is undefined
    | NotAnArray      // `push` on layout children that are not an array
    | NotAPost        // a truthy cache entry that is not a post used as one

  datatype Result<+T> = Ok(value: T) | Err(fault: Fault)

  /** A string is truthy in JavaScript iff it is defined and not empty. */
  predicate Truthy(s: Option<string>) {
    s.Some? && s.value != ""
  }

  /** What `${x}` prints for a string that may be undefined. */
  function Shown(s: Option<string>): (r: string)
    ensures s.Some? ==> r == s.value
    ensures s.None? ==> r == "undefined"
  {
    match s
    case Some(v) => v
    case None => "undefined"
  }

  function LowerChar(c: char): (r: char)
    ensures 'A' <= c <= 'Z' ==> r as int == c as int + 32
    ensures !('A' <= c <= 'Z') ==> r == c
  {
    if 'A' <= c <= 'Z' then (c as int + 32) as char else c
  }

  /** `toLocaleLowerCase`, restricted to the ASCII letters. */
  function Lower(s: string): (r: string)
    ensures |r| == |s|
    ensures forall i :: 0 <= i < |s| ==> r[i] == LowerChar(s[i])
  {
    if s == [] then [] else [LowerChar(s[0])] + Lower(s[1..])
  }

  /** Two strings that end alike and are equal were equal before that ending. */
  lemma SuffixCancels(a: string, b: string, t: string)
    requires a + t == b + t
    ensures a == b
  {
    assert |a| == |b|;
    assert a == (a + t)[..|a|];
    assert b == (b + t)[..|b|];
  }
}
