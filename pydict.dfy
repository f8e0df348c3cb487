/** Python's `dict` with string keys: an insertion-ordered association list.
    Assigning to an existing key keeps its position; a new key goes last;
    `pop` removes the key wherever it is. Iteration follows the list order. */
module PyDict {
  import opened Wrappers

  type Dict<V> = seq<(string, V)>

  /** `d.get(k)` */
  function Get<V>(d: Dict<V>, k: string): Option<V>
    decreases |d|
  {
    if d == [] then None
    else if d[0].0 == k then Some(d[0].1)
    else Get(d[1..], k)
  }

  /** No key occurs twice, as in every Python dict. */
  predicate DistinctKeys<V>(d: Dict<V>)
    decreases |d|
  {
    d == [] || (Get(d[1..], d[0].0).None? && DistinctKeys(d[1..]))
  }

  /** `d[k] = v` */
  function Set<V>(d: Dict<V>, k: string, v: V): Dict<V>
    decreases |d|
  {
    if d == [] then [(k, v)]
    else if d[0].0 == k then [(k, v)] + d[1..]
    else [d[0]] + Set(d[1..], k, v)
  }

  /** `d.pop(k, None)` */
  function Remove<V>(d: Dict<V>, k: string): Dict<V>
    decreases |d|
  {
    if d == [] then []
    else if d[0].0 == k then d[1..]
    else [d[0]] + Remove(d[1..], k)
  }

  /** `d.update(o)`: the entries of `o` assigned one by one, in order. */
  function Update<V>(d: Dict<V>, o: Dict<V>): Dict<V>
    decreases |o|
  {
    if o == [] then d else Update(Set(d, o[0].0, o[0].1), o[1..])
  }

  /** Whether `v` is one of the values of `d`. */
  ghost predicate HasValue<V>(d: Dict<V>, v: V) {
    exists i :: 0 <= i < |d| && d[i].1 == v
  }

  // ---------------------------------------------------------------------
  // Lemmas

  /** After `d[k] = v`, `d.get(k)` is `v`. */
  lemma {:induction false} GetSetSame<V>(d: Dict<V>, k: string, v: V)
    ensures Get(Set(d, k, v), k) == Some(v)
    decreases |d|
  {
    if d != [] && d[0].0 != k {
      GetSetSame(d[1..], k, v);
    }
  }

  /** `d[k] = v` leaves every other key's value alone. */
  lemma {:induction false} GetSetOther<V>(d: Dict<V>, k: string, v: V, k': string)
    requires k' != k
    ensures Get(Set(d, k, v), k') == Get(d, k')
    decreases |d|
  {
    if d != [] && d[0].0 != k {
      GetSetOther(d[1..], k, v, k');
    }
  }

  /** Assignment adds an entry exactly when the key is new. */
  lemma {:induction false} SetLength<V>(d: Dict<V>, k: string, v: V)
    ensures |Set(d, k, v)| == if Get(d, k).Some? then |d| else |d| + 1
    decreases |d|
  {
    if d != [] && d[0].0 != k {
      SetLength(d[1..], k, v);
    }
  }

  lemma {:induction false} SetDistinct<V>(d: Dict<V>, k: string, v: V)
    requires DistinctKeys(d)
    ensures DistinctKeys(Set(d, k, v))
    decreases |d|
  {
    if d != [] && d[0].0 != k {
      SetDistinct(d[1..], k, v);
      GetSetOther(d[1..], k, v, d[0].0);
      assert Set(d, k, v)[1..] == Set(d[1..], k, v);
    } else if d != [] {
      assert Set(d, k, v)[1..] == d[1..];
    }
  }

  /** After `d.pop(k)`, `k` is absent (keys are distinct, so no copy remains). */
  lemma {:induction false} GetRemoveSame<V>(d: Dict<V>, k: string)
    requires DistinctKeys(d)
    ensures Get(Remove(d, k), k) == None
    decreases |d|
  {
    if d != [] && d[0].0 != k {
      GetRemoveSame(d[1..], k);
    }
  }

  /** `d.pop(k)` leaves every other key's value alone. */
  lemma {:induction false} GetRemoveOther<V>(d: Dict<V>, k: string, k': string)
    requires k' != k
    ensures Get(Remove(d, k), k') == Get(d, k')
    decreases |d|
  {
    if d != [] && d[0].0 != k {
      GetRemoveOther(d[1..], k, k');
    }
  }

  /** Popping an absent key is a no-op. */
  lemma {:induction false} RemoveAbsent<V>(d: Dict<V>, k: string)
    requires Get(d, k).None?
    ensures Remove(d, k) == d
    decreases |d|
  {
    if d != [] {
      RemoveAbsent(d[1..], k);
    }
  }

  lemma {:induction false} RemoveDistinct<V>(d: Dict<V>, k: string)
    requires DistinctKeys(d)
    ensures DistinctKeys(Remove(d, k))
    decreases |d|
  {
    if d != [] && d[0].0 != k {
      RemoveDistinct(d[1..], k);
      GetRemoveOther(d[1..], k, d[0].0);
      assert Remove(d, k)[1..] == Remove(d[1..], k);
    }
  }

  /** `d.update(o)` gives each key of `o` its value from `o` and every other
      key its value from `d`. */
  lemma {:induction false} GetUpdate<V>(d: Dict<V>, o: Dict<V>, k: string)
    requires DistinctKeys(o)
    ensures Get(Update(d, o), k) == if Get(o, k).Some? then Get(o, k) else Get(d, k)
    decreases |o|
  {
    if o != [] {
      var d' := Set(d, o[0].0, o[0].1);
      GetUpdate(d', o[1..], k);
      if k == o[0].0 {
        GetSetSame(d, k, o[0].1);
        assert Get(o[1..], k).None?;
      } else {
        GetSetOther(d, o[0].0, o[0].1, k);
      }
    }
  }

  /** A value found under some key is one of the dict's values. */
  lemma {:induction false} GetHasValue<V>(d: Dict<V>, k: string)
    requires Get(d, k).Some?
    ensures HasValue(d, Get(d, k).value)
    decreases |d|
  {
    if d[0].0 != k {
      GetHasValue(d[1..], k);
      var i :| 0 <= i < |d[1..]| && d[1..][i].1 == Get(d, k).value;
      assert d[i + 1].1 == Get(d, k).value;
    }
  }

  /** `d.get(k)` finds the first entry with the key. */
  lemma {:induction false} GetAt<V>(d: Dict<V>, i: nat)
    requires i < |d|
    requires forall j :: 0 <= j < i ==> d[j].0 != d[i].0
    ensures Get(d, d[i].0) == Some(d[i].1)
    decreases i
  {
    if i > 0 {
      GetAt(d[1..], i - 1);
    }
  }

  /** After `d[k] = v` the values are the old ones and `v`. */
  lemma {:induction false} SetHasValue<V>(d: Dict<V>, k: string, v: V, w: V)
    requires HasValue(Set(d, k, v), w)
    ensures w == v || HasValue(d, w)
    decreases |d|
  {
    var s := Set(d, k, v);
    var i :| 0 <= i < |s| && s[i].1 == w;
    if d != [] && d[0].0 != k {
      if i == 0 {
        assert d[0].1 == w;
      } else {
        assert Set(d[1..], k, v)[i - 1].1 == w;
        SetHasValue(d[1..], k, v, w);
        if w != v {
          var j :| 0 <= j < |d[1..]| && d[1..][j].1 == w;
          assert d[j + 1].1 == w;
        }
      }
    } else if d != [] && i > 0 {
      assert d[i].1 == w;
    }
  }

  /** A lookup in two dicts laid end to end finds the first one's entry
      first. */
  lemma {:induction false} GetAppend<V>(d: Dict<V>, e: Dict<V>, k: string)
    ensures Get(d + e, k) == if Get(d, k).Some? then Get(d, k) else Get(e, k)
    decreases |d|
  {
    if d == [] {
      assert d + e == e;
    } else {
      assert (d + e)[1..] == d[1..] + e;
      GetAppend(d[1..], e, k);
    }
  }

  /** `k in d` exactly when some entry has the key. */
  lemma {:induction false} GetNone<V>(d: Dict<V>, k: string)
    ensures Get(d, k).None? <==> forall i :: 0 <= i < |d| ==> d[i].0 != k
    decreases |d|
  {
    if d != [] {
      GetNone(d[1..], k);
      assert forall i :: 1 <= i < |d| ==> d[i] == d[1..][i - 1];
    }
  }
}
