/** Python's insertion-ordered `dict` with string keys: the order of `keys`
    is the order of first insertion, and storing under a key that is already
    present replaces its value without moving it. */
module OrderedDicts {
  import opened Common

  datatype Dict<V> = Dict(keys: seq<string>, entries: map<string, V>) {
    ghost predicate Valid()
    {
      && NoDuplicates(keys)
      && (forall k :: k in entries <==> k in keys)
    }
  }

  function Empty<V>(): (d: Dict<V>)
    ensures d.Valid() && d.keys == [] && d.entries == map[]
  {
    Dict([], map[])
  }

  /** `d[k] = v` */
  function Put<V>(d: Dict<V>, k: string, v: V): (r: Dict<V>)
    requires d.Valid()
    ensures r.Valid()
    ensures r.entries == d.entries[k := v]
    ensures k in d.entries ==> r.keys == d.keys
    ensures k !in d.entries ==> r.keys == d.keys + [k]
  {
    if k in d.entries then Dict(d.keys, d.entries[k := v])
    else Dict(d.keys + [k], d.entries[k := v])
  }

  /** `d.pop(k)` without the popped value: `k` is gone, the others keep their order. */
  function Remove<V>(d: Dict<V>, k: string): (r: Dict<V>)
    requires d.Valid()
    ensures r.Valid()
    ensures k !in r.entries
    ensures forall j :: j in r.entries <==> j in d.entries && j != k
    ensures forall j :: j in r.entries ==> r.entries[j] == d.entries[j]
  {
    var ks := Filter(d.keys, j => j != k);
    FilterKeepsNoDuplicates(d.keys, j => j != k);
    Dict(ks, map j | j in d.entries && j != k :: d.entries[j])
  }

  lemma {:induction false} FilterKeepsNoDuplicates<T(!new)>(s: seq<T>, keep: T -> bool)
    requires NoDuplicates(s)
    ensures NoDuplicates(Filter(s, keep))
    decreases |s|
  {
    if s != [] {
      FilterKeepsNoDuplicates(s[1..], keep);
      assert s[0] !in s[1..];
    }
  }

  /** Storing the pairs one after the other, as a `for` loop of `d[k] = v`
      (and `dict.update`, and a dict comprehension starting from `{}`) does. */
  function PutPairs<V>(d: Dict<V>, pairs: seq<(string, V)>): (r: Dict<V>)
    requires d.Valid()
    ensures r.Valid()
    decreases |pairs|
  {
    if pairs == [] then d
    else Put(PutPairs(d, pairs[..|pairs| - 1]), pairs[|pairs| - 1].0, pairs[|pairs| - 1].1)
  }

  /** One more assignment after the others. */
  lemma PutPairsSnoc<V>(d: Dict<V>, pairs: seq<(string, V)>, k: string, v: V)
    requires d.Valid()
    ensures PutPairs(d, pairs + [(k, v)]) == Put(PutPairs(d, pairs), k, v)
  {
    assert (pairs + [(k, v)])[..|pairs|] == pairs;
  }

  /** The (key, value) pairs of `d` in key order, as `d.items()` yields them. */
  function Items<V>(d: Dict<V>): (r: seq<(string, V)>)
    requires d.Valid()
    ensures |r| == |d.keys|
    ensures forall i :: 0 <= i < |r| ==> r[i] == (d.keys[i], d.entries[d.keys[i]])
  {
    seq(|d.keys|, i requires 0 <= i < |d.keys| => (d.keys[i], d.entries[d.keys[i]]))
  }

  /** `d.update(other)`: the keys of both, where `other`'s values win; the
      keys `d` lacks follow its own, in `other`'s order. */
  function Update<V>(d: Dict<V>, other: Dict<V>): (r: Dict<V>)
    requires d.Valid() && other.Valid()
    ensures r.Valid()
    ensures forall k :: k in r.entries <==> k in d.entries || k in other.entries
    ensures forall k :: k in other.entries ==> r.entries[k] == other.entries[k]
    ensures forall k :: k in d.entries && k !in other.entries ==> r.entries[k] == d.entries[k]
    ensures r.keys == d.keys + Filter(other.keys, Absent(d))
  {
    UpdateEntries(d, other);
    PutPairsKeepsOrder(d, Items(other));
    assert PairKeys(Items(other)) == other.keys;
    FilterKeepsNoDuplicates(other.keys, Absent(d));
    DedupOfDistinct(Filter(other.keys, Absent(d)));
    PutPairs(d, Items(other))
  }

  /** Is a key missing from `d`? */
  function Absent<V>(d: Dict<V>): string -> bool
  {
    k => k !in d.entries
  }

  /** The keys of `pairs`, in order and with repetitions. */
  function PairKeys<V>(pairs: seq<(string, V)>): (r: seq<string>)
    ensures |r| == |pairs| && forall i :: 0 <= i < |pairs| ==> r[i] == pairs[i].0
  {
    seq(|pairs|, i requires 0 <= i < |pairs| => pairs[i].0)
  }

  lemma UpdateEntries<V>(d: Dict<V>, other: Dict<V>)
    requires d.Valid() && other.Valid()
    ensures forall k :: k in PutPairs(d, Items(other)).entries <==> k in d.entries || k in other.entries
    ensures forall k :: k in other.entries ==> PutPairs(d, Items(other)).entries[k] == other.entries[k]
    ensures forall k :: k in d.entries && k !in other.entries ==> PutPairs(d, Items(other)).entries[k] == d.entries[k]
  {
    forall k ensures k in PutPairs(d, Items(other)).entries <==> k in d.entries || k in other.entries {
      UpdateEntry(d, other, k);
    }
    forall k | k in other.entries ensures PutPairs(d, Items(other)).entries[k] == other.entries[k] {
      UpdateEntry(d, other, k);
    }
    forall k | k in d.entries && k !in other.entries ensures PutPairs(d, Items(other)).entries[k] == d.entries[k] {
      UpdateEntry(d, other, k);
    }
  }

  lemma UpdateEntry<V>(d: Dict<V>, other: Dict<V>, k: string)
    requires d.Valid() && other.Valid()
    ensures k in other.entries ==> k in PutPairs(d, Items(other)).entries && PutPairs(d, Items(other)).entries[k] == other.entries[k]
    ensures k !in other.entries && k in d.entries ==> k in PutPairs(d, Items(other)).entries && PutPairs(d, Items(other)).entries[k] == d.entries[k]
    ensures k in PutPairs(d, Items(other)).entries <==> k in d.entries || k in other.entries
  {
    var items := Items(other);
    PutPairsHas(d, items, k);
    if k in other.entries {
      var i :| 0 <= i < |other.keys| && other.keys[i] == k;
      assert LastWith(items, k, i);
      PutPairsLastWins(d, items, k, i);
    } else {
      if k in d.entries {
        PutPairsUntouched(d, items, k);
      }
    }
    if exists i :: 0 <= i < |items| && items[i].0 == k {
      var i :| 0 <= i < |items| && items[i].0 == k;
      assert other.keys[i] == k;
    }
  }

  /** Is `i` the last position of `pairs` that carries key `k`? */
  ghost predicate LastWith<V>(pairs: seq<(string, V)>, k: string, i: int)
  {
    0 <= i < |pairs| && pairs[i].0 == k && forall j :: i < j < |pairs| ==> pairs[j].0 != k
  }

  /** A key is present after storing `pairs` iff it was present before or
      some pair carries it. */
  lemma {:induction false} PutPairsHas<V>(d: Dict<V>, pairs: seq<(string, V)>, k: string)
    requires d.Valid()
    ensures k in PutPairs(d, pairs).entries <==> k in d.entries || exists i :: 0 <= i < |pairs| && pairs[i].0 == k
    decreases |pairs|
  {
    if pairs != [] {
      var n := |pairs| - 1;
      var init := pairs[..n];
      PutPairsHas(d, init, k);
      if exists i :: 0 <= i < |init| && init[i].0 == k {
        var i :| 0 <= i < |init| && init[i].0 == k;
        assert pairs[i].0 == k;
      }
      if exists i :: 0 <= i < |pairs| && pairs[i].0 == k {
        var i :| 0 <= i < |pairs| && pairs[i].0 == k;
        if i < n { assert init[i].0 == k; }
      }
    }
  }

  /** Last write wins: the value stored under `k` is that of the last pair
      carrying `k`. */
  lemma {:induction false} PutPairsLastWins<V>(d: Dict<V>, pairs: seq<(string, V)>, k: string, i: int)
    requires d.Valid()
    requires LastWith(pairs, k, i)
    ensures k in PutPairs(d, pairs).entries && PutPairs(d, pairs).entries[k] == pairs[i].1
    decreases |pairs|
  {
    var n := |pairs| - 1;
    var init := pairs[..n];
    assert PutPairs(d, pairs) == Put(PutPairs(d, init), pairs[n].0, pairs[n].1);
    if i < n {
      assert pairs[n].0 != k && init[i] == pairs[i];
      assert LastWith(init, k, i);
      PutPairsLastWins(d, init, k, i);
    }
  }

  /** Starting from an empty dict, every stored entry is one of the pairs. */
  lemma {:induction false} PutPairsFromPairs<V>(pairs: seq<(string, V)>, k: string)
    requires k in PutPairs(Empty(), pairs).entries
    ensures (k, PutPairs(Empty(), pairs).entries[k]) in pairs
    decreases |pairs|
  {
    var n := |pairs| - 1;
    if pairs[n].0 != k {
      PutPairsFromPairs(pairs[..n], k);
      assert pairs[..n] <= pairs;
    }
  }

  /** A key that no pair carries keeps its old value. */
  lemma {:induction false} PutPairsUntouched<V>(d: Dict<V>, pairs: seq<(string, V)>, k: string)
    requires d.Valid()
    requires k in d.entries
    requires forall i :: 0 <= i < |pairs| ==> pairs[i].0 != k
    ensures k in PutPairs(d, pairs).entries && PutPairs(d, pairs).entries[k] == d.entries[k]
    decreases |pairs|
  {
    if pairs != [] {
      var init := pairs[..|pairs| - 1];
      assert forall i :: 0 <= i < |init| ==> init[i].0 != k by {
        forall i | 0 <= i < |init| ensures init[i].0 != k { assert init[i] == pairs[i]; }
      }
      PutPairsUntouched(d, init, k);
    }
  }

  /** Keys already present keep their position; new keys are appended in the
      order of their first pair. */
  lemma {:induction false} PutPairsKeepsOrder<V>(d: Dict<V>, pairs: seq<(string, V)>)
    requires d.Valid()
    ensures PutPairs(d, pairs).keys == d.keys + Dedup(Filter(PairKeys(pairs), Absent(d)))
    decreases |pairs|
  {
    if pairs != [] {
      var n := |pairs| - 1;
      var init := pairs[..n];
      var k := pairs[n].0;
      PutPairsKeepsOrder(d, init);
      var before := PutPairs(d, init);
      assert PutPairs(d, pairs) == Put(before, k, pairs[n].1);
      PairKeysSnoc(pairs);
      FilterSnoc(PairKeys(init), k, Absent(d));
      var f := Filter(PairKeys(init), Absent(d));
      PutPairsHas(d, init, k);
      PairKeysHas(init, k);
      if k in d.entries {
        assert !Absent(d)(k);
        assert Filter(PairKeys(pairs), Absent(d)) == f;
        assert PutPairs(d, pairs).keys == before.keys;
      } else {
        assert Absent(d)(k);
        assert Filter(PairKeys(pairs), Absent(d)) == f + [k];
        DedupSnoc(f, k);
        if k in PairKeys(init) {
          assert k in f;
          assert PutPairs(d, pairs).keys == before.keys;
        } else {
          assert k !in f;
          assert PutPairs(d, pairs).keys == before.keys + [k];
          assert d.keys + Dedup(f) + [k] == d.keys + (Dedup(f) + [k]);
        }
      }
    }
  }

  lemma PairKeysSnoc<V>(pairs: seq<(string, V)>)
    requires pairs != []
    ensures PairKeys(pairs) == PairKeys(pairs[..|pairs| - 1]) + [pairs[|pairs| - 1].0]
  {
  }

  lemma PairKeysHas<V>(pairs: seq<(string, V)>, k: string)
    ensures k in PairKeys(pairs) <==> exists i :: 0 <= i < |pairs| && pairs[i].0 == k
  {
    if exists i :: 0 <= i < |pairs| && pairs[i].0 == k {
      var i :| 0 <= i < |pairs| && pairs[i].0 == k;
      assert PairKeys(pairs)[i] == k;
    }
  }

  lemma DedupSnoc<T(!new)>(s: seq<T>, x: T)
    ensures Dedup(s + [x]) == if x in s then Dedup(s) else Dedup(s) + [x]
  {
    assert (s + [x])[..|s|] == s;
  }

  /** A sequence without repetitions is its own `Dedup`. */
  lemma {:induction false} DedupOfDistinct<T(!new)>(s: seq<T>)
    requires NoDuplicates(s)
    ensures Dedup(s) == s
    decreases |s|
  {
    if s != [] {
      var n := |s| - 1;
      DedupOfDistinct(s[..n]);
      assert s[n] !in s[..n];
      assert s[..n] + [s[n]] == s;
    }
  }
}
