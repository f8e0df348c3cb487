/** The learned-fact store (`storage.py`): a string-keyed dict of JSON values
    held in memory, loaded from and saved to the host's persistent `Store`
    as a whole snapshot. The host store is modelled by the field `disk`:
    `None` when nothing was ever saved, otherwise the last snapshot. */
module Storage {
  import opened Wrappers
  import opened PyDict
  import opened JsonValue

  class FactStore {
    var facts: Dict<Json>
    var disk: Option<Dict<Json>>

    /** Every dict the store holds, in memory or on disk, has distinct keys. */
    ghost predicate Valid()
      reads this
    {
      DistinctKeys(facts) && (disk.Some? ==> DistinctKeys(disk.value))
    }

    /** `FactStore(hass)`: an empty in-memory dict over an existing host store. */
    constructor (disk: Option<Dict<Json>>)
      requires disk.Some? ==> DistinctKeys(disk.value)
      ensures Valid() && facts == [] && this.disk == disk
    {
      facts := [];
      this.disk := disk;
    }

    /** `async_load`: the stored snapshot replaces the facts only when it
        is truthy (present and non-empty). */
    method AsyncLoad()
      requires Valid()
      modifies this
      ensures Valid() && disk == old(disk)
      ensures facts == if disk.Some? && disk.value != [] then disk.value else old(facts)
    {
      var data := disk;
      if data.Some? && data.value != [] {
        facts := data.value;
      }
    }

    /** `async_save`: the whole current dict becomes the stored snapshot. */
    method AsyncSave()
      requires Valid()
      modifies this
      ensures Valid() && facts == old(facts) && disk == Some(facts)
    {
      disk := Some(facts);
    }

    /** `add_fact`: `_facts[key] = value`. */
    method AddFact(key: string, value: Json)
      requires Valid()
      modifies this
      ensures Valid() && disk == old(disk)
      ensures facts == Set(old(facts), key, value)
      ensures GetFactOf(key) == Some(value)
      ensures forall k :: k != key ==> GetFactOf(k) == old(GetFactOf(k))
    {
      SetDistinct(facts, key, value);
      GetSetSame(facts, key, value);
      forall k | k != key ensures Get(Set(facts, key, value), k) == Get(facts, k) {
        GetSetOther(facts, key, value, k);
      }
      facts := Set(facts, key, value);
    }

    /** `_facts.get(key)`: `None` for an absent key. */
    function GetFactOf(key: string): Option<Json>
      reads this
    {
      Get(facts, key)
    }

    /** `get_fact` */
    method GetFact(key: string) returns (r: Option<Json>)
      ensures r.Some? <==> exists i :: 0 <= i < |facts| && facts[i].0 == key
      ensures r.Some? ==> HasValue(facts, r.value)
      ensures r == GetFactOf(key)
    {
      r := Get(facts, key);
      GetPresence(facts, key);
      if r.Some? {
        GetHasValue(facts, key);
      }
    }

    /** `get_all_facts`: a copy of the dict (a value, so later changes to the
        store do not reach it). */
    method GetAllFacts() returns (r: Dict<Json>)
      requires Valid()
      ensures r == facts && DistinctKeys(r)
    {
      r := facts;
    }

    /** `remove_fact`: `_facts.pop(key, None)`. */
    method RemoveFact(key: string)
      requires Valid()
      modifies this
      ensures Valid() && disk == old(disk)
      ensures facts == Remove(old(facts), key)
      ensures GetFactOf(key) == None
      ensures forall k :: k != key ==> GetFactOf(k) == old(GetFactOf(k))
      ensures old(GetFactOf(key)).None? ==> facts == old(facts)
    {
      RemoveDistinct(facts, key);
      GetRemoveSame(facts, key);
      forall k | k != key ensures Get(Remove(facts, key), k) == Get(facts, k) {
        GetRemoveOther(facts, key, k);
      }
      if Get(facts, key).None? {
        RemoveAbsent(facts, key);
      }
      facts := Remove(facts, key);
    }

    /** `clear` */
    method Clear()
      requires Valid()
      modifies this
      ensures Valid() && disk == old(disk) && facts == []
    {
      facts := [];
    }
  }

  /** A key is found exactly when some entry carries it. */
  lemma {:induction false} GetPresence(d: Dict<Json>, k: string)
    ensures Get(d, k).Some? <==> exists i :: 0 <= i < |d| && d[i].0 == k
    decreases |d|
  {
    if d != [] && d[0].0 != k {
      GetPresence(d[1..], k);
      if Get(d, k).None? {
        forall i | 0 <= i < |d| ensures d[i].0 != k {
          if i > 0 { assert d[i] == d[1..][i - 1]; }
        }
      } else {
        var i :| 0 <= i < |d[1..]| && d[1..][i].0 == k;
        assert d[i + 1].0 == k;
      }
    }
  }

  /** Adding a fact and reading it back gives the value; adding the same key
      again overwrites it. */
  lemma AddThenGet(d: Dict<Json>, k: string, v: Json, w: Json)
    ensures Get(Set(d, k, v), k) == Some(v)
    ensures Get(Set(Set(d, k, v), k, w), k) == Some(w)
    ensures |Set(Set(d, k, v), k, w)| == |Set(d, k, v)|
  {
    GetSetSame(d, k, v);
    GetSetSame(Set(d, k, v), k, w);
    SetLength(Set(d, k, v), k, w);
  }
}
