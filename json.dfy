/** An abstract JSON value (RFC 8259), standing for `serde_json::Value`.

    Objects are maps, as `serde_json::Map` is: two objects with the same members are
    the same value whatever order the members were written in. Numbers are integers
    only; the model has no floating point. */
module Json {
  import opened Wrappers

  /** One byte of a frame received from the WebSocket. */
  newtype byte = x: int | 0 <= x < 256

  datatype Json =
    | Null
    | Bool(b: bool)
    | Int(i: int)
    | Str(s: string)
    | Array(items: seq<Json>)
    | Object(fields: map<string, Json>)

  /** `None` serialises as `null`, `Some(x)` as `x` (serde's rule for `Option`). */
  function OptStr(o: Option<string>): Json {
    match o
    case None => Null
    case Some(s) => Str(s)
  }

  function OptInt(o: Option<nat>): Json {
    match o
    case None => Null
    case Some(n) => Int(n)
  }

  function OptBool(o: Option<bool>): Json {
    match o
    case None => Null
    case Some(b) => Bool(b)
  }

  function StrArray(xs: seq<string>): (r: Json)
    ensures r.Array? && |r.items| == |xs|
    ensures forall i :: 0 <= i < |xs| ==> r.items[i] == Str(xs[i])
  {
    Array(seq(|xs|, i requires 0 <= i < |xs| => Str(xs[i])))
  }

  /** Inverses of the serialisers above: `None` when the value has the wrong type. */
  function AsOptStr(j: Json): Option<Option<string>> {
    match j
    case Null => Some(None)
    case Str(s) => Some(Some(s))
    case _ => None
  }

  function AsOptNat(j: Json): Option<Option<nat>> {
    match j
    case Null => Some(None)
    case Int(n) => if n >= 0 then Some(Some(n)) else None
    case _ => None
  }

  function AsOptBool(j: Json): Option<Option<bool>> {
    match j
    case Null => Some(None)
    case Bool(b) => Some(Some(b))
    case _ => None
  }

  function AsStrArray(j: Json): (r: Option<seq<string>>)
    ensures r.Some? ==> StrArray(r.value) == j
  {
    if j.Array? && forall i :: 0 <= i < |j.items| ==> j.items[i].Str? then
      Some(seq(|j.items|, i requires 0 <= i < |j.items| => j.items[i].s))
    else None
  }

  lemma StrArrayRoundTrip(xs: seq<string>)
    ensures AsStrArray(StrArray(xs)) == Some(xs)
  {
    var j := StrArray(xs);
    assert forall i :: 0 <= i < |j.items| ==> j.items[i].Str? && j.items[i].s == xs[i];
    assert seq(|j.items|, i requires 0 <= i < |j.items| => j.items[i].s) == xs;
  }

  lemma OptRoundTrips(s: Option<string>, n: Option<nat>, b: Option<bool>)
    ensures AsOptStr(OptStr(s)) == Some(s)
    ensures AsOptNat(OptInt(n)) == Some(n)
    ensures AsOptBool(OptBool(b)) == Some(b)
  {
  }
}
