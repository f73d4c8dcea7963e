/**
  JSON values as the request helpers send and receive them, the response a
  helper returns, and the requests a node issues.
 */
module Json {

  /** A JSON value; an object is a dictionary from keys to values. */
  datatype Json =
    | Null
    | Bool(b: bool)
    | Num(n: int)
    | Str(s: string)
    | Arr(elems: seq<Json>)
    | Obj(fields: map<string, Json>)

  /** What an awaited request helper hands back: `undefined` or a JSON value. */
  datatype Response = Undefined | Defined(value: Json)

  /** A request issued to the remote API (verb and path relative to the API base). */
  datatype Request =
    | Get(path: string)
    | Post(path: string, payload: Json)

  /**
    How a response is appended to a node's output: an array is appended element
    by element, `undefined` is skipped, anything else (null included) is one record.
   */
  function Flatten(r: Response): (records: seq<Json>)
    ensures r.Undefined? ==> records == []
    ensures r.Defined? && r.value.Arr? ==> records == r.value.elems
    ensures r.Defined? && !r.value.Arr? ==> records == [r.value]
  {
    match r
    case Undefined => []
    case Defined(Arr(elems)) => elems
    case Defined(v) => [v]
  }

  /** String values of a list, as a JSON array. */
  function Strs(xs: seq<string>): (j: Json)
    ensures j.Arr? && |j.elems| == |xs|
    ensures forall i :: 0 <= i < |xs| ==> j.elems[i] == Str(xs[i])
  {
    Arr(seq(|xs|, i requires 0 <= i < |xs| => Str(xs[i])))
  }
}
