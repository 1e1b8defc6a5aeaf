/** A JavaScript object used as a dictionary keyed by strings. `Object.keys`
    lists keys in the order they were first added, which is what makes the
    order of a stable sort's ties observable, so the key order is kept next
    to the entries. */
module JsObject {
  import opened Wrappers

  datatype Dict<V> = Dict(keys: seq<string>, entries: map<string, V>) {

    /** Every key is listed once, and the listed keys are the entries' keys. */
    ghost predicate Valid() {
      && (forall i, j :: 0 <= i < j < |keys| ==> keys[i] != keys[j])
      && (forall k :: k in entries <==> k in keys)
    }

    function Get(k: string): Option<V> {
      if k in entries then Some(entries[k]) else None
    }

    /** `obj[k] = v`: a new key goes last, an existing key keeps its place. */
    function Put(k: string, v: V): (r: Dict<V>)
      ensures Valid() ==> r.Valid()
      ensures r.entries == entries[k := v]
      ensures k in keys ==> r.keys == keys
      ensures k !in keys ==> r.keys == keys + [k]
    {
      Dict(if k in keys then keys else keys + [k], entries[k := v])
    }

    /** `delete obj[k]`. */
    function Remove(k: string): (r: Dict<V>)
      ensures Valid() ==> r.Valid()
      ensures r.entries == entries - {k}
      ensures forall j :: j in r.keys <==> j in keys && j != k
    {
      Dict(Without(keys, k), entries - {k})
    }

    /** `Object.keys(obj).map(key => obj[key])`. */
    function Values(): (r: seq<V>)
      requires Valid()
      ensures |r| == |keys|
      ensures forall i :: 0 <= i < |keys| ==> r[i] == entries[keys[i]]
    {
      seq(|keys|, i requires 0 <= i < |keys| => entries[keys[i]])
    }
  }

  function EmptyDict<V>(): (r: Dict<V>)
    ensures r.Valid() && r.keys == [] && r.entries == map[]
  {
    Dict([], map[])
  }

  /** `keys` without `k`, the others in order. */
  function Without(keys: seq<string>, k: string): (r: seq<string>)
    ensures forall j :: j in r <==> j in keys && j != k
    ensures (forall a, b :: 0 <= a < b < |keys| ==> keys[a] != keys[b]) ==>
            (forall a, b :: 0 <= a < b < |r| ==> r[a] != r[b])
    decreases |keys|
  {
    if keys == [] then []
    else
      var rest := Without(keys[1..], k);
      assert forall j :: j in keys <==> j == keys[0] || j in keys[1..];
      assert (forall a, b :: 0 <= a < b < |keys| ==> keys[a] != keys[b]) ==> keys[0] !in keys[1..] by {
        if forall a, b :: 0 <= a < b < |keys| ==> keys[a] != keys[b] {
          forall i | 0 <= i < |keys[1..]| ensures keys[1..][i] != keys[0] {
            assert keys[1..][i] == keys[i + 1];
          }
        }
      }
      if keys[0] == k then rest else [keys[0]] + rest
  }
}
