/**
 * A plain JavaScript object used as a dictionary (`{ [key: string]: V }`):
 * its own string-keyed properties in insertion order. Assigning to a key
 * that is already present replaces the value where it stands; assigning to
 * a new key adds it at the end. `Object.entries` and `Object.values` walk
 * the properties in that order.
 */
module JsObject {
  import opened Prelude

  type Object<V> = seq<(string, V)>

  /** `Object.keys(o)`. */
  function Keys<V>(o: Object<V>): (r: seq<string>)
    ensures |r| == |o| && forall i :: 0 <= i < |o| ==> r[i] == o[i].0
  {
    if o == [] then [] else [o[0].0] + Keys(o[1..])
  }

  /** `Object.values(o)`. */
  function Values<V>(o: Object<V>): (r: seq<V>)
    ensures |r| == |o| && forall i :: 0 <= i < |o| ==> r[i] == o[i].1
  {
    if o == [] then [] else [o[0].1] + Values(o[1..])
  }

  /** No key occurs twice, as in every object built by `Put`. */
  predicate UniqueKeys<V>(o: Object<V>)
  {
    forall i, j :: 0 <= i < j < |o| ==> o[i].0 != o[j].0
  }

  /** `o[k]`, with `None` for `undefined`. */
  function Get<V>(o: Object<V>, k: string): Option<V>
  {
    if o == [] then None
    else if o[0].0 == k then Some(o[0].1)
    else Get(o[1..], k)
  }

  /** `o[k] = v`. */
  function Put<V>(o: Object<V>, k: string, v: V): (r: Object<V>)
    ensures Get(r, k) == Some(v)
    ensures forall k' :: k' != k ==> Get(r, k') == Get(o, k')
    ensures k in Keys(o) ==> Keys(r) == Keys(o)
    ensures k !in Keys(o) ==> Keys(r) == Keys(o) + [k]
  {
    if o == [] then [(k, v)]
    else if o[0].0 == k then
      var r := [(k, v)] + o[1..];
      assert r[1..] == o[1..];
      r
    else
      var rest := Put(o[1..], k, v);
      var r := [o[0]] + rest;
      assert r[1..] == rest;
      r
  }

  /** `o[k]` is defined exactly for the keys `Object.keys(o)` lists. */
  lemma {:induction false} GetDefinedIffKey<V>(o: Object<V>, k: string)
    ensures Get(o, k).Some? <==> k in Keys(o)
  {
    if o != [] {
      GetDefinedIffKey(o[1..], k);
      assert Keys(o) == [o[0].0] + Keys(o[1..]);
    }
  }

  /** In an object whose keys are unique, `o[k]` is the value of the one property named `k`. */
  lemma {:induction false} GetOfUniqueKey<V>(o: Object<V>, k: string, i: nat)
    requires UniqueKeys(o) && i < |o| && o[i].0 == k
    ensures Get(o, k) == Some(o[i].1)
  {
    if i > 0 {
      assert o[0].0 != o[i].0;
      var rest := o[1..];
      assert forall p, q :: 0 <= p < q < |rest| ==> rest[p].0 == o[p + 1].0 && rest[q].0 == o[q + 1].0;
      GetOfUniqueKey(rest, k, i - 1);
    }
  }

  /** `GetOfUniqueKey` for every property named `k` at once. */
  lemma GetOfUniqueKeys<V>(o: Object<V>, k: string)
    ensures forall i :: 0 <= i < |o| && UniqueKeys(o) && o[i].0 == k ==> Get(o, k) == Some(o[i].1)
  {
    forall i | 0 <= i < |o| && UniqueKeys(o) && o[i].0 == k
      ensures Get(o, k) == Some(o[i].1)
    {
      GetOfUniqueKey(o, k, i);
    }
  }

  /** Assignment never creates a second property with the same key. */
  lemma {:induction false} PutKeepsKeysUnique<V>(o: Object<V>, k: string, v: V)
    requires UniqueKeys(o)
    ensures UniqueKeys(Put(o, k, v))
  {
    var r := Put(o, k, v);
    forall i, j | 0 <= i < j < |r| ensures r[i].0 != r[j].0 {
      assert Keys(r)[i] == r[i].0 && Keys(r)[j] == r[j].0;
      if k !in Keys(o) && j == |o| {
        assert Keys(o)[i] == r[i].0;
      } else {
        assert Keys(o)[i] == r[i].0 && Keys(o)[j] == r[j].0;
      }
    }
  }
}
