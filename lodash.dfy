/** The lodash `pick` helper, restricted to flat (dot-free) key lists. */
module Lodash {
  import opened Js

  /**
   * `pick(object, keys)`: a new object holding exactly those listed keys that the
   * object has, each with the object's value. A `null` or `undefined` object gives
   * the empty object. The result does not depend on the order of the keys
   * (`PickDependsOnKeySetOnly`).
   */
  function Pick<V>(obj: Option<map<string, V>>, keys: seq<string>): (r: map<string, V>)
    ensures forall k :: k in r <==> obj.Some? && k in obj.value && k in keys
    ensures forall k :: k in r ==> r[k] == obj.value[k]
    decreases |keys|
  {
    if obj.None? || keys == [] then map[]
    else
      var rest := Pick(obj, keys[1..]);
      if keys[0] in obj.value then rest[keys[0] := obj.value[keys[0]]] else rest
  }

  /** Reference definition: the object's map restricted to the listed keys. */
  function Restrict<V>(obj: map<string, V>, keys: set<string>): (r: map<string, V>)
  {
    map k | k in obj && k in keys :: obj[k]
  }

  /** `pick` agrees with the restriction of the object to the set of listed keys. */
  lemma PickIsRestriction<V>(obj: map<string, V>, keys: seq<string>)
    ensures Pick(Some(obj), keys) == Restrict(obj, set k | k in keys)
  {
  }

  /** A missing object yields the empty object whatever the keys. */
  lemma PickOfNothing<V>(keys: seq<string>)
    ensures Pick<V>(None, keys) == map[]
  {
  }

  /** Picking the same keys twice changes nothing. */
  lemma PickIdempotent<V>(obj: Option<map<string, V>>, keys: seq<string>)
    ensures Pick(Some(Pick(obj, keys)), keys) == Pick(obj, keys)
  {
  }

  /** Only the set of listed keys matters, not their order or repetition. */
  lemma PickDependsOnKeySetOnly<V>(obj: Option<map<string, V>>, keys1: seq<string>, keys2: seq<string>)
    requires forall k :: k in keys1 <==> k in keys2
    ensures Pick(obj, keys1) == Pick(obj, keys2)
  {
  }
}
