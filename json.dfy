/** Optional values, standing for Python's `None`. */
module Wrappers {

  datatype Option<+T> = None | Some(value: T)
}

/** The JSON-compatible values that the `to_dict` projections build: Python
    dictionaries become `Obj`, lists `Arr`, strings `Str`, integers `Num`
    and `None` becomes `Null`. */
module Json {
  import opened Wrappers

  datatype Value =
    | Null
    | Num(n: int)
    | Str(s: string)
    | Arr(items: seq<Value>)
    | Obj(fields: map<string, Value>)

  /** Every entry of `a` is an entry of `b`. */
  predicate SubMap<K, V(==)>(a: map<K, V>, b: map<K, V>) {
    forall k :: k in a ==> k in b && a[k] == b[k]
  }

  /** A Python `list[int]` as a JSON array. */
  function IntArray(xs: seq<int>): (v: Value)
    ensures v.Arr? && |v.items| == |xs|
    ensures forall i :: 0 <= i < |xs| ==> v.items[i] == Num(xs[i])
  {
    Arr(seq(|xs|, i requires 0 <= i < |xs| => Num(xs[i])))
  }

  /** Reads a JSON array of integers back; `None` for anything else. */
  function AsIntArray(v: Value): (r: Option<seq<int>>)
    ensures r.Some? <==> v.Arr? && forall i :: 0 <= i < |v.items| ==> v.items[i].Num?
    ensures r.Some? ==> |r.value| == |v.items|
    ensures r.Some? ==> forall i :: 0 <= i < |r.value| ==> v.items[i] == Num(r.value[i])
  {
    if v.Arr? && forall i :: 0 <= i < |v.items| ==> v.items[i].Num? then
      Some(seq(|v.items|, i requires 0 <= i < |v.items| => v.items[i].n))
    else
      None
  }

  lemma IntArrayRoundTrip(xs: seq<int>)
    ensures AsIntArray(IntArray(xs)) == Some(xs)
  {
    var r := AsIntArray(IntArray(xs));
    assert r.value == xs;
  }

  /** A Python `list[str]` as a JSON array. */
  function StrArray(xs: seq<string>): (v: Value)
    ensures v.Arr? && |v.items| == |xs|
    ensures forall i :: 0 <= i < |xs| ==> v.items[i] == Str(xs[i])
  {
    Arr(seq(|xs|, i requires 0 <= i < |xs| => Str(xs[i])))
  }

  /** Reads a JSON array of strings back; `None` for anything else. */
  function AsStrArray(v: Value): (r: Option<seq<string>>)
    ensures r.Some? <==> v.Arr? && forall i :: 0 <= i < |v.items| ==> v.items[i].Str?
    ensures r.Some? ==> |r.value| == |v.items|
    ensures r.Some? ==> forall i :: 0 <= i < |r.value| ==> v.items[i] == Str(r.value[i])
  {
    if v.Arr? && forall i :: 0 <= i < |v.items| ==> v.items[i].Str? then
      Some(seq(|v.items|, i requires 0 <= i < |v.items| => v.items[i].s))
    else
      None
  }

  lemma StrArrayRoundTrip(xs: seq<string>)
    ensures AsStrArray(StrArray(xs)) == Some(xs)
  {
    var r := AsStrArray(StrArray(xs));
    assert r.value == xs;
  }
}
