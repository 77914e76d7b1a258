/**
 * The earlier SDK's backlog (code/src/lib/stores/local.class.js): the same
 * dictionary from key (stream name) to an array of values as the current
 * backlog, with the same five operations. The meaning of each operation is the
 * one given by the functions of module Storage.
 */
module Stores {
  import opened Utils
  import Storage

  class LocalStore<V> {
    /** `this.data`: key to the values not yet taken. */
    var data: map<string, seq<V>>
    /** The order `Object.keys(this.data)` lists the keys in: insertion order. */
    var keys: seq<string>

    ghost predicate Valid()
      reads this
    {
      Storage.Distinct(keys) && forall k :: k in data <==> k in keys
    }

    constructor()
      ensures Valid() && data == map[] && keys == []
    {
      data := map[];
      keys := [];
    }

    /** `add(key, value)`: pushes `value`, creating the key's array if missing, and
        returns the key's array after the push. */
    method Add(key: string, value: V) returns (r: seq<V>)
      requires Valid()
      modifies this
      ensures Valid()
      ensures data == Storage.Appended(old(data), key, value)
      ensures keys == if key in old(data) then old(keys) else old(keys) + [key]
      ensures r == Storage.Pending(old(data), key) + [value]
    {
      if key !in data {
        data := data[key := []];
        keys := keys + [key];
      }
      data := data[key := data[key] + [value]];
      r := Get(key).value;
    }

    /** `get(key)`: the key's values, left in place; None stands for
        `undefined` when the key was never added. */
    function Get(key: string): (r: Option<seq<V>>)
      reads this
      ensures r.Some? <==> key in data
      ensures r.Some? ==> r.value == Storage.Pending(data, key)
    {
      if key in data then Some(data[key]) else None
    }

    /** `take(key)`: empties the key's array and returns everything it held,
        in insertion order; throws when the key was never added. */
    method Take(key: string) returns (r: Result<seq<V>, string>)
      requires Valid()
      modifies this
      ensures Valid() && keys == old(keys)
      ensures r.Ok? <==> key in old(data)
      ensures r.Ok? ==> r.value == old(data)[key] && data == Storage.Emptied(old(data), key)
      ensures r.Err? ==> r.error == key + " does not exist in the store" && data == old(data)
    {
      var d := Get(key);
      if d.None? {
        return Err(key + " does not exist in the store");
      }
      data := data[key := []];
      return Ok(d.value);
    }

    /** `isEmpty(key)`: nothing is pending for the key, whether or not it
        was ever added. */
    function IsEmpty(key: string): (b: bool)
      reads this
      ensures b <==> Storage.Pending(data, key) == []
    {
      var d := Get(key);
      d.None? || |d.value| <= 0
    }

    /** `keys`: every key ever added, each once, in insertion order. */
    function Keys(): (ks: seq<string>)
      reads this
      requires Valid()
      ensures Storage.Distinct(ks)
      ensures forall k :: k in ks <==> k in data
    {
      keys
    }
  }
}
