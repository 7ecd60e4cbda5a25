/** `CompositeFunctor`: a keyed dictionary of child functors evaluated
    together. It pushes its filter down to the children, merges in other
    functors, reports the duplicate-free union of the children's columns,
    and evaluates every child on one bulk load of the table. */
module Composite {
  import opened Common
  import opened OrderedDicts
  import opened Frames
  import opened Names
  import opened Functors
  import opened Loader

  /** The children in key order, as `funcDict.values()` yields them. */
  function Values(d: Dict<Functor>): (r: seq<Functor>)
    requires d.Valid()
    ensures |r| == |d.keys| && forall i :: 0 <= i < |r| ==> r[i] == d.entries[d.keys[i]]
  {
    seq(|d.keys|, i requires 0 <= i < |d.keys| => d.entries[d.keys[i]])
  }

  /** Every child's `filt` set to `filt`; `Color` children ignore it. */
  function PushFilt(d: Dict<Functor>, filt: string): (r: Dict<Functor>)
    requires d.Valid()
    ensures r.Valid() && r.keys == d.keys
    ensures forall k :: k in r.entries <==> k in d.entries
    ensures forall k :: k in d.entries ==> r.entries[k] == WithFilt(d.entries[k], filt)
    ensures forall k :: k in d.entries && !d.entries[k].kind.Color? ==> Filt(r.entries[k]) == Some(filt)
    ensures forall k :: k in d.entries && d.entries[k].kind.Color? ==> r.entries[k] == d.entries[k]
  {
    Dict(d.keys, map k | k in d.entries :: WithFilt(d.entries[k], filt))
  }

  /** The dictionary after the `filt` setter: unchanged for `None`. */
  function Pushed(d: Dict<Functor>, filt: Option<string>): (r: Dict<Functor>)
    requires d.Valid()
    ensures r.Valid() && r.keys == d.keys
    ensures filt.None? ==> r == d
    ensures filt.Some? ==> r == PushFilt(d, filt.value)
  {
    if filt.Some? then PushFilt(d, filt.value) else d
  }

  /** Every child other than a `Color` reports the composite's filter, when
      it has one. */
  ghost predicate FiltPushed(d: Dict<Functor>, filt: Option<string>)
  {
    filt.Some? ==> forall k :: k in d.entries && !d.entries[k].kind.Color? ==> Filt(d.entries[k]) == filt
  }

  /** Pushing a filter twice is pushing it once. */
  lemma PushFiltIdempotent(d: Dict<Functor>, filt: string)
    requires d.Valid()
    ensures PushFilt(PushFilt(d, filt), filt) == PushFilt(d, filt)
  {
    var once := PushFilt(d, filt);
    var twice := PushFilt(once, filt);
    assert twice.entries == once.entries by {
      forall k | k in once.entries ensures twice.entries[k] == once.entries[k] {
        assert WithFilt(WithFilt(d.entries[k], filt), filt) == WithFilt(d.entries[k], filt);
      }
    }
  }

  /** The children of a list, keyed by `shortname`: a later child with the
      same shortname replaces an earlier one in place. */
  function KeyedByShortname(fs: seq<Functor>): (r: Dict<Functor>)
    ensures r.Valid()
  {
    PutPairs(Empty(), seq(|fs|, i requires 0 <= i < |fs| => (Shortname(fs[i]), fs[i])))
  }

  /** A list's child is found under its shortname unless a later child has
      the same shortname; every key is some child's shortname. */
  lemma KeyedByShortnameLastWins(fs: seq<Functor>, i: int)
    requires 0 <= i < |fs|
    requires forall j :: i < j < |fs| ==> Shortname(fs[j]) != Shortname(fs[i])
    ensures Shortname(fs[i]) in KeyedByShortname(fs).entries
    ensures KeyedByShortname(fs).entries[Shortname(fs[i])] == fs[i]
  {
    var pairs := seq(|fs|, j requires 0 <= j < |fs| => (Shortname(fs[j]), fs[j]));
    assert LastWith(pairs, Shortname(fs[i]), i);
    PutPairsLastWins(Empty(), pairs, Shortname(fs[i]), i);
  }

  lemma KeyedByShortnameKeys(fs: seq<Functor>, k: string)
    ensures k in KeyedByShortname(fs).entries <==> exists i :: 0 <= i < |fs| && Shortname(fs[i]) == k
  {
    var pairs := seq(|fs|, j requires 0 <= j < |fs| => (Shortname(fs[j]), fs[j]));
    PutPairsHas(Empty(), pairs, k);
    if exists i :: 0 <= i < |fs| && Shortname(fs[i]) == k {
      var i :| 0 <= i < |fs| && Shortname(fs[i]) == k;
      assert pairs[i].0 == k;
    }
  }

  /** The union of the children's `columns`, in child order, repetitions
      kept; the first child without columns makes it raise. */
  function ChildrenColumns(fs: seq<Functor>): (r: Result<seq<string>>)
    ensures r.Ok? <==> forall i :: 0 <= i < |fs| ==> Columns(fs[i]).Ok?
    ensures r.Err? ==> r.error == ColumnsUndefined
    ensures r.Ok? ==> forall c :: c in r.value <==> exists i :: 0 <= i < |fs| && c in Columns(fs[i]).value
    decreases |fs|
  {
    if fs == [] then Ok([])
    else
      var first :- Columns(fs[0]);
      var rest :- ChildrenColumns(fs[1..]);
      assert forall c :: c in rest <==> exists i :: 1 <= i < |fs| && c in Columns(fs[i]).value by {
        forall c ensures c in rest <==> exists i :: 1 <= i < |fs| && c in Columns(fs[i]).value {
          if c in rest {
            var i :| 0 <= i < |fs[1..]| && c in Columns(fs[1..][i]).value;
            assert c in Columns(fs[i + 1]).value;
          }
          if exists i :: 1 <= i < |fs| && c in Columns(fs[i]).value {
            var i :| 1 <= i < |fs| && c in Columns(fs[i]).value;
            assert c in Columns(fs[1..][i - 1]).value;
          }
        }
      }
      Ok(first + rest)
  }

  /** The union of the children's `multilevelColumns`, in child order; the
      first child whose resolution fails makes it raise. */
  function ChildrenKeys(fs: seq<Functor>, t: Table): (r: Result<seq<Key>>)
    requires t.Multilevel?
    ensures r.Ok? <==> forall i :: 0 <= i < |fs| ==> MultilevelColumns(fs[i], t).Ok?
    ensures r.Err? ==> exists i :: 0 <= i < |fs| && MultilevelColumns(fs[i], t) == Err(r.error) &&
                                    forall j :: 0 <= j < i ==> MultilevelColumns(fs[j], t).Ok?
    ensures r.Ok? ==> forall k :: k in r.value <==> exists i :: 0 <= i < |fs| && k in MultilevelColumns(fs[i], t).value
    decreases |fs|
  {
    if fs == [] then Ok([])
    else
      var first :- MultilevelColumns(fs[0], t);
      var rest := ChildrenKeys(fs[1..], t);
      if rest.Err? then
        var i :| 0 <= i < |fs[1..]| && MultilevelColumns(fs[1..][i], t) == Err(rest.error) &&
                 forall j :: 0 <= j < i ==> MultilevelColumns(fs[1..][j], t).Ok?;
        assert MultilevelColumns(fs[i + 1], t) == Err(rest.error);
        assert forall j :: 0 <= j < i + 1 ==> MultilevelColumns(fs[j], t).Ok? by {
          forall j | 0 <= j < i + 1 ensures MultilevelColumns(fs[j], t).Ok? {
            if j > 0 {
              assert fs[j] == fs[1..][j - 1];
            }
          }
        }
        Err(rest.error)
      else
        assert forall k :: k in rest.value <==> exists i :: 1 <= i < |fs| && k in MultilevelColumns(fs[i], t).value by {
          forall k ensures k in rest.value <==> exists i :: 1 <= i < |fs| && k in MultilevelColumns(fs[i], t).value {
            if k in rest.value {
              var i :| 0 <= i < |fs[1..]| && k in MultilevelColumns(fs[1..][i], t).value;
              assert k in MultilevelColumns(fs[i + 1], t).value;
            }
            if exists i :: 1 <= i < |fs| && k in MultilevelColumns(fs[i], t).value {
              var i :| 1 <= i < |fs| && k in MultilevelColumns(fs[i], t).value;
              assert k in MultilevelColumns(fs[1..][i - 1], t).value;
            }
          }
        }
        Ok(first + rest.value)
  }

  /** What `pd.concat(valDict, axis=1)` builds: one column per key, in key
      order, over the shared row index. */
  datatype ResultTable = ResultTable(index: seq<RowId>, names: seq<string>, columns: seq<seq<Value>>) {
    predicate Valid()
    {
      |columns| == |names| && forall j :: 0 <= j < |columns| ==> |columns[j]| == |index|
    }
  }

  /** Row `p` has a value in every column. */
  predicate RowComplete(rt: ResultTable, p: int)
  {
    forall j :: 0 <= j < |rt.columns| ==> 0 <= p < |rt.columns[j]| && rt.columns[j][p] != Missing
  }

  /** The positions of the complete rows, in increasing order. */
  function CompleteRows(rt: ResultTable): (r: seq<nat>)
    ensures Increasing(r)
    ensures forall i :: 0 <= i < |r| ==> r[i] < |rt.index|
    ensures forall p :: p in r <==> 0 <= p < |rt.index| && RowComplete(rt, p)
  {
    var all: seq<nat> := seq(|rt.index|, i requires 0 <= i < |rt.index| => i as nat);
    assert forall p :: p in all <==> 0 <= p < |rt.index| by {
      forall p | 0 <= p < |rt.index| ensures p in all { assert all[p] == p; }
    }
    var keep: nat -> bool := p => RowComplete(rt, p);
    FilterIncreasing(all, keep);
    var r := Filter(all, keep);
    assert forall i :: 0 <= i < |r| ==> r[i] in r;
    r
  }

  /** `valDf.dropna(how='any')`: the rows with a value in every column, in
      order. */
  function DropIncomplete(rt: ResultTable): (r: ResultTable)
    requires rt.Valid()
    ensures r.Valid() && r.names == rt.names
    ensures |r.index| == |CompleteRows(rt)|
    ensures forall i :: 0 <= i < |r.index| ==> r.index[i] == rt.index[CompleteRows(rt)[i]]
    ensures forall j, i :: 0 <= j < |r.columns| && 0 <= i < |r.index| ==>
              r.columns[j][i] == rt.columns[j][CompleteRows(rt)[i]] && r.columns[j][i] != Missing
  {
    var sel := CompleteRows(rt);
    assert forall i :: 0 <= i < |sel| ==> sel[i] in sel;
    ResultTable(
      seq(|sel|, i requires 0 <= i < |sel| => rt.index[sel[i]]),
      rt.names,
      seq(|rt.columns|, j requires 0 <= j < |rt.columns| =>
        seq(|sel|, i requires 0 <= i < |sel| => rt.columns[j][sel[i]])))
  }

  /** `pd.concat` of the collected columns, then the optional `dropna`; an
      empty collection cannot be concatenated. */
  function Concat(names: seq<string>, index: seq<RowId>, cols: seq<seq<Value>>, dropna: bool): (r: Result<ResultTable>)
    requires |cols| == |names| && forall j :: 0 <= j < |cols| ==> |cols[j]| == |index|
    ensures names == [] <==> r.Err?
    ensures r.Err? ==> r.error == NothingToConcat && ClassOf(r.error) == ValueError
    ensures r.Ok? && !dropna ==> r.value == ResultTable(index, names, cols) && r.value.Valid()
    ensures r.Ok? && dropna ==> r.value == DropIncomplete(ResultTable(index, names, cols))
  {
    if names == [] then Err(NothingToConcat)
    else
      var rt := ResultTable(index, names, cols);
      Ok(if dropna then DropIncomplete(rt) else rt)
  }

  function FullKeys(keys: seq<Key>): (r: seq<FrameKey>)
    ensures |r| == |keys| && forall i :: 0 <= i < |keys| ==> r[i] == FullKey(keys[i])
  {
    seq(|keys|, i requires 0 <= i < |keys| => FullKey(keys[i]))
  }

  /** `f._setLevels(df[f.multilevelColumns(parq)])`: a child's own columns
      taken from the bulk load. */
  function ChildFrame(f: Functor, t: Table, df: Frame): (r: Result<Frame>)
    requires t.Multilevel?
    ensures r.Ok? ==> r.value.index == df.index
  {
    var keys :- MultilevelColumns(f, t);
    var sub :- Select(df, FullKeys(keys));
    Ok(SetLevels(f, sub))
  }

  /** `f._func(subdf)`, or `f.fail(subdf)` when the transform raises. */
  function ChildValues(f: Functor, sub: Frame, env: Env): (r: seq<Value>)
    ensures |r| == |sub.index|
    ensures RowValues(sub, Func(f, sub, env)).Some? ==> r == RowValues(sub, Func(f, sub, env)).value
    ensures RowValues(sub, Func(f, sub, env)).None? ==> r == Fail(sub).vals
  {
    match RowValues(sub, Func(f, sub, env))
    case Some(v) => v
    case None => Fail(sub).vals
  }

  /** The loop of the multilevel branch from child `fs[0]` on. `subdf` is the
      frame of the last child whose frame resolved: the handler that catches
      a failure to resolve calls `fail(subdf)` on it, and before any child
      resolved `subdf` is unbound. */
  function MultilevelResults(fs: seq<Functor>, t: Table, df: Frame, env: Env, subdf: Option<Frame>): (r: Result<seq<seq<Value>>>)
    requires t.Multilevel?
    requires subdf.Some? ==> subdf.value.index == df.index
    ensures r.Ok? ==> |r.value| == |fs| && forall j :: 0 <= j < |fs| ==> |r.value[j]| == |df.index|
    decreases |fs|
  {
    if fs == [] then Ok([])
    else
      match ChildFrame(fs[0], t, df)
      case Ok(sub) =>
        var rest :- MultilevelResults(fs[1..], t, df, env, Some(sub));
        Ok([ChildValues(fs[0], sub, env)] + rest)
      case Err(e) =>
        if subdf.None? then Err(Unbound(e))
        else
          var rest :- MultilevelResults(fs[1..], t, df, env, subdf);
          Ok([Fail(subdf.value).vals] + rest)
  }

  /** `{k: f._func(df) for k, f in funcDict.items()}`: no handler, so the
      first transform that raises ends the call. */
  function PlainResults(fs: seq<Functor>, df: Frame, env: Env): (r: Result<seq<seq<Value>>>)
    ensures r.Err? <==> exists j :: 0 <= j < |fs| && RowValues(df, Func(fs[j], df, env)).None?
    ensures r.Err? ==> r.error == TransformRaised
    ensures r.Ok? ==> |r.value| == |fs| && forall j :: 0 <= j < |fs| ==> Some(r.value[j]) == RowValues(df, Func(fs[j], df, env))
    ensures r.Ok? ==> forall j :: 0 <= j < |fs| ==> |r.value[j]| == |df.index|
    decreases |fs|
  {
    if fs == [] then Ok([])
    else
      match RowValues(df, Func(fs[0], df, env))
      case None => Err(TransformRaised)
      case Some(v) =>
        var rest := PlainResults(fs[1..], df, env);
        if rest.Err? then
          var j :| 0 <= j < |fs[1..]| && RowValues(df, Func(fs[1..][j], df, env)).None?;
          assert RowValues(df, Func(fs[j + 1], df, env)).None?;
          Err(TransformRaised)
        else
          assert forall j :: 1 <= j < |fs| ==> RowValues(df, Func(fs[j], df, env)).Some? by {
            forall j | 1 <= j < |fs| ensures RowValues(df, Func(fs[j], df, env)).Some? {
              assert fs[j] == fs[1..][j - 1];
            }
          }
          Ok([v] + rest.value)
  }

  /** `CompositeFunctor.__call__`. On a multilevel table: resolve the union
      of the children's keys (any failure raises), load it once, then give
      each child its own columns, containing its failure. On a plain table:
      load the union of the children's columns and run every transform
      without a handler. */
  function Evaluation(d: Dict<Functor>, t: Table, dropna: bool, env: Env): (r: Result<ResultTable>)
    requires d.Valid()
    ensures r.Ok? ==> r.value.names == d.keys && r.value.Valid()
    ensures r.Ok? && !dropna ==> r.value.index == t.index
  {
    if t.Multilevel? then
      var keys :- ChildrenKeys(Values(d), t);
      var df :- LoadMultilevel(t, Dedup(keys));
      var cols :- MultilevelResults(Values(d), t, df, env, None);
      Concat(d.keys, df.index, cols, dropna)
    else
      var names :- ChildrenColumns(Values(d));
      var df :- LoadPlain(t, Dedup(names));
      var cols :- PlainResults(Values(d), df, env);
      Concat(d.keys, df.index, cols, dropna)
  }

  /** Every key of a bulk load finds its own column in the loaded frame. */
  lemma LookupLoaded(t: Table, all: seq<Key>, k: Key)
    requires t.Multilevel? && LoadMultilevel(t, all).Ok? && k in all
    ensures k in t.cells
    ensures Lookup(LoadMultilevel(t, all).value.cols, FullKey(k)) == Some(t.cells[k])
  {
    var df := LoadMultilevel(t, all).value;
    var i :| 0 <= i < |all| && all[i] == k;
    assert df.cols[i].key == FullKey(k);
    var found := Lookup(df.cols, FullKey(k));
    var j :| 0 <= j < |df.cols| && df.cols[j] == Column(FullKey(k), found.value);
    assert FullKey(all[j]) == FullKey(k);
  }

  /** Selecting a child's keys from the bulk load gives the child the very
      frame it would load on its own. */
  lemma ChildFrameIsOwnLoad(f: Functor, t: Table, all: seq<Key>)
    requires t.Multilevel? && LoadMultilevel(t, all).Ok?
    requires MultilevelColumns(f, t).Ok?
    requires forall k :: k in MultilevelColumns(f, t).value ==> k in all
    ensures GetCols(f, t).Ok?
    ensures ChildFrame(f, t, LoadMultilevel(t, all).value) == GetCols(f, t)
  {
    var df := LoadMultilevel(t, all).value;
    var keys := MultilevelColumns(f, t).value;
    forall k | k in keys ensures k in t.cells && Lookup(df.cols, FullKey(k)) == Some(t.cells[k]) {
      LookupLoaded(t, all, k);
    }
    var own := LoadMultilevel(t, keys);
    assert own.Ok?;
    var sel := Select(df, FullKeys(keys));
    assert sel.Ok? by {
      forall i | 0 <= i < |keys| ensures Lookup(df.cols, FullKeys(keys)[i]).Some? {
        assert keys[i] in keys;
      }
    }
    assert sel.value.cols == own.value.cols by {
      forall i | 0 <= i < |keys| ensures sel.value.cols[i] == own.value.cols[i] {
        assert keys[i] in keys;
      }
    }
  }

  lemma MultilevelResultsUnfold(fs: seq<Functor>, t: Table, df: Frame, env: Env, subdf: Option<Frame>)
    requires t.Multilevel? && fs != [] && ChildFrame(fs[0], t, df).Ok?
    requires subdf.Some? ==> subdf.value.index == df.index
    requires MultilevelResults(fs[1..], t, df, env, Some(ChildFrame(fs[0], t, df).value)).Ok?
    ensures MultilevelResults(fs, t, df, env, subdf) ==
            Ok([ChildValues(fs[0], ChildFrame(fs[0], t, df).value, env)] +
               MultilevelResults(fs[1..], t, df, env, Some(ChildFrame(fs[0], t, df).value)).value)
  {
  }

  /** A child whose keys resolve, all of them among the bulk-loaded ones. */
  predicate Covered(f: Functor, t: Table, all: seq<Key>)
    requires t.Multilevel?
  {
    MultilevelColumns(f, t).Ok? && forall k :: k in MultilevelColumns(f, t).value ==> k in all
  }

  /** One child of the loop: its values from the bulk load are those of its
      own call. */
  lemma ChildValuesAreOwnCall(f: Functor, t: Table, all: seq<Key>, env: Env)
    requires t.Multilevel? && LoadMultilevel(t, all).Ok? && Covered(f, t, all)
    ensures ChildFrame(f, t, LoadMultilevel(t, all).value).Ok?
    ensures Evaluate(f, t, false, env).Ok?
    ensures ChildValues(f, ChildFrame(f, t, LoadMultilevel(t, all).value).value, env) == Evaluate(f, t, false, env).value.vals
  {
    ChildFrameIsOwnLoad(f, t, all);
  }

  /** `cols` holds, child by child, what each child's own call yields. */
  predicate OwnCalls(fs: seq<Functor>, t: Table, env: Env, cols: seq<seq<Value>>)
  {
    |cols| == |fs| &&
    forall j :: 0 <= j < |fs| ==> Evaluate(fs[j], t, false, env).Ok? && cols[j] == Evaluate(fs[j], t, false, env).value.vals
  }

  lemma OwnCallsCons(fs: seq<Functor>, t: Table, env: Env, x: seq<Value>, rest: seq<seq<Value>>)
    requires fs != [] && OwnCalls(fs[1..], t, env, rest)
    requires Evaluate(fs[0], t, false, env).Ok? && x == Evaluate(fs[0], t, false, env).value.vals
    ensures OwnCalls(fs, t, env, [x] + rest)
  {
    forall j | 1 <= j < |fs| ensures Evaluate(fs[j], t, false, env).Ok? && ([x] + rest)[j] == Evaluate(fs[j], t, false, env).value.vals {
      assert fs[j] == fs[1..][j - 1];
    }
  }

  /** Once the bulk load succeeded, every child gets a column, and it is the
      column the child's own call yields. */
  lemma {:induction false} MultilevelResultsAreOwnCalls(fs: seq<Functor>, t: Table, all: seq<Key>, env: Env, subdf: Option<Frame>)
    requires t.Multilevel? && LoadMultilevel(t, all).Ok?
    requires subdf.Some? ==> subdf.value.index == LoadMultilevel(t, all).value.index
    requires forall i :: 0 <= i < |fs| ==> Covered(fs[i], t, all)
    ensures MultilevelResults(fs, t, LoadMultilevel(t, all).value, env, subdf).Ok?
    ensures OwnCalls(fs, t, env, MultilevelResults(fs, t, LoadMultilevel(t, all).value, env, subdf).value)
    decreases |fs|
  {
    if fs != [] {
      var df := LoadMultilevel(t, all).value;
      assert Covered(fs[0], t, all);
      ChildValuesAreOwnCall(fs[0], t, all, env);
      var sub := ChildFrame(fs[0], t, df).value;
      assert forall i :: 0 <= i < |fs[1..]| ==> Covered(fs[1..][i], t, all) by {
        forall i | 0 <= i < |fs[1..]| ensures Covered(fs[1..][i], t, all) {
          assert fs[1..][i] == fs[i + 1];
        }
      }
      MultilevelResultsAreOwnCalls(fs[1..], t, all, env, Some(sub));
      MultilevelResultsUnfold(fs, t, df, env, subdf);
      OwnCallsCons(fs, t, env, ChildValues(fs[0], sub, env), MultilevelResults(fs[1..], t, df, env, Some(sub)).value);
    }
  }

  /** The multilevel branch, column by column: the composite's column under
      a key is exactly what calling that child alone yields, so a child that
      raises gets a missing-value column and leaves the others as they are. */
  lemma CompositeColumnIsChildCall(d: Dict<Functor>, t: Table, env: Env, j: int)
    requires d.Valid() && t.Multilevel?
    requires Evaluation(d, t, false, env).Ok?
    requires 0 <= j < |d.keys|
    ensures Evaluation(d, t, false, env).value.names[j] == d.keys[j]
    ensures Evaluate(d.entries[d.keys[j]], t, false, env).Ok?
    ensures Evaluation(d, t, false, env).value.columns[j] == Evaluate(d.entries[d.keys[j]], t, false, env).value.vals
  {
    var fs := Values(d);
    var keys := ChildrenKeys(fs, t).value;
    forall i | 0 <= i < |fs| ensures Covered(fs[i], t, Dedup(keys)) {
      assert MultilevelColumns(fs[i], t).Ok?;
    }
    MultilevelResultsAreOwnCalls(fs, t, Dedup(keys), env, None);
  }

  /** On a plain table one raising transform makes the whole call raise. */
  lemma PlainFailurePropagates(d: Dict<Functor>, t: Table, dropna: bool, env: Env, j: int)
    requires d.Valid() && t.Plain?
    requires ChildrenColumns(Values(d)).Ok?
    requires LoadPlain(t, Dedup(ChildrenColumns(Values(d)).value)).Ok?
    requires 0 <= j < |d.keys|
    requires RowValues(LoadPlain(t, Dedup(ChildrenColumns(Values(d)).value)).value,
                       Func(d.entries[d.keys[j]], LoadPlain(t, Dedup(ChildrenColumns(Values(d)).value)).value, env)).None?
    ensures Evaluation(d, t, dropna, env) == Err(TransformRaised)
  {
    assert Values(d)[j] == d.entries[d.keys[j]];
  }

  /** `dropna` drops exactly the incomplete rows of the result. */
  lemma DropnaDropsIncompleteRows(d: Dict<Functor>, t: Table, env: Env)
    requires d.Valid()
    ensures Evaluation(d, t, false, env).Err? ==> Evaluation(d, t, true, env) == Evaluation(d, t, false, env)
    ensures Evaluation(d, t, false, env).Ok? ==>
              Evaluation(d, t, true, env) == Ok(DropIncomplete(Evaluation(d, t, false, env).value))
  {
  }

  /** One child of the multilevel loop, as a step on the remaining children. */
  lemma MultilevelStep(fs: seq<Functor>, i: int, t: Table, df: Frame, env: Env, subdf: Option<Frame>)
    requires t.Multilevel? && 0 <= i < |fs|
    requires subdf.Some? ==> subdf.value.index == df.index
    ensures ChildFrame(fs[i], t, df).Ok? ==>
              var sub := ChildFrame(fs[i], t, df).value;
              MultilevelResults(fs[i..], t, df, env, subdf) ==
              Prepend([ChildValues(fs[i], sub, env)], MultilevelResults(fs[i + 1..], t, df, env, Some(sub)))
    ensures ChildFrame(fs[i], t, df).Err? && subdf.None? ==>
              MultilevelResults(fs[i..], t, df, env, subdf) == Err(Unbound(ChildFrame(fs[i], t, df).error))
    ensures ChildFrame(fs[i], t, df).Err? && subdf.Some? ==>
              MultilevelResults(fs[i..], t, df, env, subdf) ==
              Prepend([Fail(subdf.value).vals], MultilevelResults(fs[i + 1..], t, df, env, subdf))
  {
    assert fs[i..][0] == fs[i];
    assert fs[i..][1..] == fs[i + 1..];
  }

  lemma PrependTwice(acc: seq<seq<Value>>, x: seq<seq<Value>>, r: Result<seq<seq<Value>>>)
    ensures Prepend(acc, Prepend(x, r)) == Prepend(acc + x, r)
  {
    if r.Ok? {
      assert acc + (x + r.value) == (acc + x) + r.value;
    }
  }

  /** The loop of the multilevel branch of `CompositeFunctor.__call__`. */
  method CollectMultilevel(fs: seq<Functor>, t: Table, df: Frame, env: Env) returns (r: Result<seq<seq<Value>>>)
    requires t.Multilevel?
    ensures r == MultilevelResults(fs, t, df, env, None)
  {
    var cols: seq<seq<Value>> := [];
    var subdf: Option<Frame> := None;
    assert fs[0..] == fs;
    PrependNothing(MultilevelResults(fs, t, df, env, None));
    for i := 0 to |fs|
      invariant subdf.Some? ==> subdf.value.index == df.index
      invariant MultilevelResults(fs, t, df, env, None) == Prepend(cols, MultilevelResults(fs[i..], t, df, env, subdf))
    {
      MultilevelStep(fs, i, t, df, env, subdf);
      var sub := ChildFrame(fs[i], t, df);
      if sub.Ok? {
        PrependTwice(cols, [ChildValues(fs[i], sub.value, env)], MultilevelResults(fs[i + 1..], t, df, env, Some(sub.value)));
        subdf := Some(sub.value);
        cols := cols + [ChildValues(fs[i], sub.value, env)];
      } else if subdf.None? {
        return Err(Unbound(sub.error));
      } else {
        PrependTwice(cols, [Fail(subdf.value).vals], MultilevelResults(fs[i + 1..], t, df, env, subdf));
        cols := cols + [Fail(subdf.value).vals];
      }
    }
    assert fs[|fs|..] == [];
    assert cols + [] == cols;
    return Ok(cols);
  }

  lemma PrependNothing(r: Result<seq<seq<Value>>>)
    ensures Prepend([], r) == r
  {
    if r.Ok? {
      assert [] + r.value == r.value;
    }
  }

  function Prepend(acc: seq<seq<Value>>, r: Result<seq<seq<Value>>>): Result<seq<seq<Value>>>
  {
    match r
    case Ok(v) => Ok(acc + v)
    case Err(e) => Err(e)
  }

  /** A parsed translation file: the `funcs` mapping from output name to a
      functor definition, `flag_rename_rules`, `refFlags` and `flags`. A
      section that is absent is `None`; so is a null `flag_rename_rules`,
      which the source treats like an absent one. */
  datatype Translation = Translation(
    funcs: Option<Dict<Dict<YamlValue>>>,
    renameRules: Option<seq<(string, string)>>,
    refFlags: Option<seq<string>>,
    flags: Option<seq<string>>)

  ghost predicate WellFormedTranslation(def: Translation)
  {
    def.funcs.Some? ==>
      def.funcs.value.Valid() && forall n :: n in def.funcs.value.entries ==> def.funcs.value.entries[n].Valid()
  }

  function OrEmpty(xs: Option<seq<string>>): seq<string>
  {
    if xs.Some? then xs.value else []
  }

  /** `init_fromDict(val, name=n)` on the definition of `n`. */
  function Build(n: string, defs: map<string, Dict<YamlValue>>, registry: map<string, Ctor>): (r: Result<Functor>)
    requires n in defs && defs[n].Valid()
    ensures r.Ok? ==> WellFormed(r.value)
    ensures r.Err? && TypeKey in defs[n].entries && defs[n].entries[TypeKey].Str? && defs[n].entries[TypeKey].s in registry ==>
              r.error.Construction? && r.error.name == n
  {
    InitFromDict(defs[n], registry, n)
  }

  /** `init_fromDict` on each definition of `names`, in order. */
  function Builds(names: seq<string>, defs: map<string, Dict<YamlValue>>, registry: map<string, Ctor>): (r: seq<Result<Functor>>)
    requires forall n :: n in names ==> n in defs && defs[n].Valid()
    ensures |r| == |names| && forall i :: 0 <= i < |names| ==> r[i] == Build(names[i], defs, registry)
  {
    seq(|names|, i requires 0 <= i < |names| => Build(names[i], defs, registry))
  }

  /** The loop that stores the built functors under their names; the first
      definition that failed to build raises. */
  function Collect(names: seq<string>, results: seq<Result<Functor>>): (r: Result<seq<(string, Functor)>>)
    requires |results| == |names|
    ensures r.Ok? ==> |r.value| == |names|
    ensures r.Ok? ==> forall i :: 0 <= i < |names| ==> results[i].Ok? && r.value[i] == (names[i], results[i].value)
    decreases |names|
  {
    if names == [] then Ok([])
    else
      var built :- Collect(names[..|names| - 1], results[..|names| - 1]);
      var f :- results[|names| - 1];
      Ok(built + [(names[|names| - 1], f)])
  }

  /** The loop fails exactly when some definition fails, and then with the
      error of the first one that does. */
  lemma {:induction false} CollectFirstFailure(names: seq<string>, results: seq<Result<Functor>>)
    requires |results| == |names|
    ensures Collect(names, results).Err? <==> exists i :: 0 <= i < |names| && results[i].Err?
    ensures Collect(names, results).Err? ==>
              exists i :: 0 <= i < |names| && results[i].Err? && Collect(names, results).error == results[i].error &&
                (forall j :: 0 <= j < i ==> results[j].Ok?)
    decreases |names|
  {
    if names != [] {
      var k := |names| - 1;
      CollectFirstFailure(names[..k], results[..k]);
      assert forall j :: 0 <= j < k ==> results[..k][j] == results[j];
    }
  }

  /** Once a prefix of the definitions fails, the whole loop fails with that
      error. */
  lemma {:induction false} CollectStopsAtFailure(names: seq<string>, results: seq<Result<Functor>>, j: int)
    requires |results| == |names| && 0 <= j <= |names|
    requires Collect(names[..j], results[..j]).Err?
    ensures Collect(names, results) == Collect(names[..j], results[..j])
    decreases |names| - j
  {
    if j < |names| {
      assert names[..j + 1][..j] == names[..j];
      assert results[..j + 1][..j] == results[..j];
      CollectStopsAtFailure(names, results, j + 1);
    } else {
      assert names[..j] == names && results[..j] == results;
    }
  }

  /** `Column(flag, dataset=...)` */
  function FlagColumn(flag: string, dataset: string): (f: Functor)
    ensures f.kind == ColumnOf(flag) && f.dataset == dataset && Filt(f).None? && f.noDupArg.None?
    ensures Columns(f) == Ok([flag])
  {
    NewFunctor(ColumnOf(flag), None, Some(dataset), None)
  }

  /** One entry per flag, under the flag's renamed name. */
  function FlagColumns(flags: seq<string>, rules: Option<seq<(string, string)>>, dataset: string): (r: seq<(string, Functor)>)
    ensures |r| == |flags|
    ensures forall i :: 0 <= i < |flags| ==> r[i] == (Renamed(flags[i], rules), FlagColumn(flags[i], dataset))
  {
    seq(|flags|, i requires 0 <= i < |flags| => (Renamed(flags[i], rules), FlagColumn(flags[i], dataset)))
  }

  lemma FlagColumnsSnoc(flags: seq<string>, i: int, rules: Option<seq<(string, string)>>, dataset: string)
    requires 0 <= i < |flags|
    ensures FlagColumns(flags[..i + 1], rules, dataset) ==
            FlagColumns(flags[..i], rules, dataset) + [(Renamed(flags[i], rules), FlagColumn(flags[i], dataset))]
  {
    assert flags[..i + 1][..i] == flags[..i];
  }

  /** The dict `from_yaml` fills: the built definitions, then a
      reference-catalogue column per entry of `refFlags`, then a measurement
      column per entry of `flags`; a later entry replaces an earlier one under
      the same name. */
  function Assemble(built: seq<(string, Functor)>, refFlags: seq<string>, flags: seq<string>, rules: Option<seq<(string, string)>>): (r: Dict<Functor>)
    ensures r.Valid()
  {
    PutPairs(PutPairs(PutPairs(Empty(), built), FlagColumns(refFlags, rules, "ref")), FlagColumns(flags, rules, "meas"))
  }

  /** A measurement flag replaces anything of the same name before it. */
  lemma AssembleFlag(built: seq<(string, Functor)>, refFlags: seq<string>, flags: seq<string>, rules: Option<seq<(string, string)>>, i: int)
    requires 0 <= i < |flags|
    requires forall j :: i < j < |flags| ==> Renamed(flags[j], rules) != Renamed(flags[i], rules)
    ensures Renamed(flags[i], rules) in Assemble(built, refFlags, flags, rules).entries
    ensures Assemble(built, refFlags, flags, rules).entries[Renamed(flags[i], rules)] == FlagColumn(flags[i], "meas")
  {
    var withRef := PutPairs(PutPairs(Empty(), built), FlagColumns(refFlags, rules, "ref"));
    assert LastWith(FlagColumns(flags, rules, "meas"), Renamed(flags[i], rules), i);
    PutPairsLastWins(withRef, FlagColumns(flags, rules, "meas"), Renamed(flags[i], rules), i);
  }

  /** A reference flag replaces a definition of the same name, and is itself
      replaced only by a later reference flag or by a measurement flag. */
  lemma AssembleRefFlag(built: seq<(string, Functor)>, refFlags: seq<string>, flags: seq<string>, rules: Option<seq<(string, string)>>, i: int)
    requires 0 <= i < |refFlags|
    requires forall j :: i < j < |refFlags| ==> Renamed(refFlags[j], rules) != Renamed(refFlags[i], rules)
    requires forall f :: f in flags ==> Renamed(f, rules) != Renamed(refFlags[i], rules)
    ensures Renamed(refFlags[i], rules) in Assemble(built, refFlags, flags, rules).entries
    ensures Assemble(built, refFlags, flags, rules).entries[Renamed(refFlags[i], rules)] == FlagColumn(refFlags[i], "ref")
  {
    var name := Renamed(refFlags[i], rules);
    var refs := FlagColumns(refFlags, rules, "ref");
    var meas := FlagColumns(flags, rules, "meas");
    assert LastWith(refs, name, i);
    PutPairsLastWins(PutPairs(Empty(), built), refs, name, i);
    forall j | 0 <= j < |meas| ensures meas[j].0 != name {
      assert flags[j] in flags;
    }
    PutPairsUntouched(PutPairs(PutPairs(Empty(), built), refs), meas, name);
  }

  /** A built definition that is the last of its name, and that no flag
      renames onto, stays. */
  lemma AssembleKeeps(built: seq<(string, Functor)>, refFlags: seq<string>, flags: seq<string>, rules: Option<seq<(string, string)>>, i: int)
    requires 0 <= i < |built| && LastWith(built, built[i].0, i)
    requires forall f :: f in refFlags + flags ==> Renamed(f, rules) != built[i].0
    ensures built[i].0 in Assemble(built, refFlags, flags, rules).entries
    ensures Assemble(built, refFlags, flags, rules).entries[built[i].0] == built[i].1
  {
    var n := built[i].0;
    var refs := FlagColumns(refFlags, rules, "ref");
    var meas := FlagColumns(flags, rules, "meas");
    PutPairsLastWins(Empty(), built, n, i);
    forall j | 0 <= j < |refs| ensures refs[j].0 != n {
      assert refFlags[j] in refFlags + flags;
    }
    PutPairsUntouched(PutPairs(Empty(), built), refs, n);
    forall j | 0 <= j < |meas| ensures meas[j].0 != n {
      assert flags[j] in refFlags + flags;
    }
    PutPairsUntouched(PutPairs(PutPairs(Empty(), built), refs), meas, n);
  }

  /** The names in the assembled dict: the built names and the renamed
      flags, nothing else. */
  lemma AssembleNames(built: seq<(string, Functor)>, refFlags: seq<string>, flags: seq<string>, rules: Option<seq<(string, string)>>, n: string)
    ensures n in Assemble(built, refFlags, flags, rules).entries <==>
            (exists i :: 0 <= i < |built| && built[i].0 == n) || exists f :: f in refFlags + flags && Renamed(f, rules) == n
  {
    var refs := FlagColumns(refFlags, rules, "ref");
    var meas := FlagColumns(flags, rules, "meas");
    PutPairsHas(Empty(), built, n);
    PutPairsHas(PutPairs(Empty(), built), refs, n);
    PutPairsHas(PutPairs(PutPairs(Empty(), built), refs), meas, n);
    if exists f :: f in refFlags + flags && Renamed(f, rules) == n {
      var f :| f in refFlags + flags && Renamed(f, rules) == n;
      if f in refFlags {
        var j :| 0 <= j < |refFlags| && refFlags[j] == f;
        assert refs[j].0 == n;
      } else {
        var j :| 0 <= j < |flags| && flags[j] == f;
        assert meas[j].0 == n;
      }
    }
    if exists j :: 0 <= j < |refs| && refs[j].0 == n {
      var j :| 0 <= j < |refs| && refs[j].0 == n;
      assert refFlags[j] in refFlags + flags;
    }
    if exists j :: 0 <= j < |meas| && meas[j].0 == n {
      var j :| 0 <= j < |meas| && meas[j].0 == n;
      assert flags[j] in refFlags + flags;
    }
  }

  /** The children `CompositeFunctor.from_yaml` builds: every definition of
      `funcs` built in order (the first failure raises), then the flag
      columns. A translation without `funcs` raises `KeyError`. */
  function TranslationFuncs(def: Translation, registry: map<string, Ctor>): (r: Result<Dict<Functor>>)
    requires WellFormedTranslation(def)
    ensures def.funcs.None? ==> r == Err(MissingEntry("funcs"))
    ensures def.funcs.Some? ==> r.Err? == Collect(def.funcs.value.keys, Builds(def.funcs.value.keys, def.funcs.value.entries, registry)).Err?
    ensures r.Ok? ==> r.value.Valid()
  {
    if def.funcs.None? then Err(MissingEntry("funcs"))
    else
      var defs := def.funcs.value;
      assert forall n :: n in defs.keys ==> n in defs.entries;
      var built :- Collect(defs.keys, Builds(defs.keys, defs.entries, registry));
      Ok(Assemble(built, OrEmpty(def.refFlags), OrEmpty(def.flags), def.renameRules))
  }

  /** `from_yaml` raises exactly when some definition fails to build, with
      the error of the first that does. */
  lemma TranslationFailsOnFirstBadDefinition(def: Translation, registry: map<string, Ctor>)
    requires WellFormedTranslation(def) && def.funcs.Some?
    ensures var results := Builds(def.funcs.value.keys, def.funcs.value.entries, registry);
            (TranslationFuncs(def, registry).Err? <==> exists i :: 0 <= i < |results| && results[i].Err?) &&
            (TranslationFuncs(def, registry).Err? ==>
               exists i :: 0 <= i < |results| && results[i].Err? && TranslationFuncs(def, registry).error == results[i].error &&
                 forall j :: 0 <= j < i ==> results[j].Ok?)
  {
    var defs := def.funcs.value;
    assert forall n :: n in defs.keys ==> n in defs.entries;
    CollectFirstFailure(defs.keys, Builds(defs.keys, defs.entries, registry));
  }

  /** A name listed once, that no flag renames onto, keeps its built
      functor. */
  lemma CollectedKept(names: seq<string>, results: seq<Result<Functor>>, def: Translation, i: int)
    requires |results| == |names| && Collect(names, results).Ok? && NoDuplicates(names) && 0 <= i < |names|
    requires forall f :: f in OrEmpty(def.refFlags) + OrEmpty(def.flags) ==> Renamed(f, def.renameRules) != names[i]
    ensures results[i].Ok?
    ensures names[i] in Assemble(Collect(names, results).value, OrEmpty(def.refFlags), OrEmpty(def.flags), def.renameRules).entries
    ensures Assemble(Collect(names, results).value, OrEmpty(def.refFlags), OrEmpty(def.flags), def.renameRules).entries[names[i]] == results[i].value
  {
    var built := Collect(names, results).value;
    assert LastWith(built, built[i].0, i) by {
      forall j | i < j < |built| ensures built[j].0 != built[i].0 {
        assert names[j] != names[i];
      }
    }
    AssembleKeeps(built, OrEmpty(def.refFlags), OrEmpty(def.flags), def.renameRules, i);
  }

  /** A definition of `funcs` that no flag renames onto keeps the functor
      built from it. */
  lemma FuncsKept(def: Translation, registry: map<string, Ctor>, i: int)
    requires WellFormedTranslation(def) && TranslationFuncs(def, registry).Ok?
    requires 0 <= i < |def.funcs.value.keys|
    requires forall f :: f in OrEmpty(def.refFlags) + OrEmpty(def.flags) ==> Renamed(f, def.renameRules) != def.funcs.value.keys[i]
    ensures Builds(def.funcs.value.keys, def.funcs.value.entries, registry)[i].Ok?
    ensures def.funcs.value.keys[i] in TranslationFuncs(def, registry).value.entries
    ensures TranslationFuncs(def, registry).value.entries[def.funcs.value.keys[i]] ==
            Builds(def.funcs.value.keys, def.funcs.value.entries, registry)[i].value
  {
    var defs := def.funcs.value;
    assert forall m :: m in defs.keys ==> m in defs.entries;
    CollectedKept(defs.keys, Builds(defs.keys, defs.entries, registry), def, i);
  }

  /** A reference flag replaces a definition of the same name. */
  lemma RefFlagsBeatFuncs(def: Translation, registry: map<string, Ctor>, i: int)
    requires WellFormedTranslation(def) && TranslationFuncs(def, registry).Ok?
    requires 0 <= i < |OrEmpty(def.refFlags)|
    requires forall j :: i < j < |OrEmpty(def.refFlags)| ==>
               Renamed(OrEmpty(def.refFlags)[j], def.renameRules) != Renamed(OrEmpty(def.refFlags)[i], def.renameRules)
    requires forall f :: f in OrEmpty(def.flags) ==> Renamed(f, def.renameRules) != Renamed(OrEmpty(def.refFlags)[i], def.renameRules)
    ensures Renamed(OrEmpty(def.refFlags)[i], def.renameRules) in TranslationFuncs(def, registry).value.entries
    ensures TranslationFuncs(def, registry).value.entries[Renamed(OrEmpty(def.refFlags)[i], def.renameRules)] ==
            FlagColumn(OrEmpty(def.refFlags)[i], "ref")
  {
    var defs := def.funcs.value;
    assert forall m :: m in defs.keys ==> m in defs.entries;
    var built := Collect(defs.keys, Builds(defs.keys, defs.entries, registry)).value;
    AssembleRefFlag(built, OrEmpty(def.refFlags), OrEmpty(def.flags), def.renameRules, i);
  }

  /** A measurement flag replaces anything of the same name before it. */
  lemma FlagsWin(def: Translation, registry: map<string, Ctor>, i: int)
    requires WellFormedTranslation(def) && TranslationFuncs(def, registry).Ok?
    requires 0 <= i < |OrEmpty(def.flags)|
    requires forall j :: i < j < |OrEmpty(def.flags)| ==>
               Renamed(OrEmpty(def.flags)[j], def.renameRules) != Renamed(OrEmpty(def.flags)[i], def.renameRules)
    ensures Renamed(OrEmpty(def.flags)[i], def.renameRules) in TranslationFuncs(def, registry).value.entries
    ensures TranslationFuncs(def, registry).value.entries[Renamed(OrEmpty(def.flags)[i], def.renameRules)] ==
            FlagColumn(OrEmpty(def.flags)[i], "meas")
  {
    var defs := def.funcs.value;
    assert forall m :: m in defs.keys ==> m in defs.entries;
    var built := Collect(defs.keys, Builds(defs.keys, defs.entries, registry)).value;
    AssembleFlag(built, OrEmpty(def.refFlags), OrEmpty(def.flags), def.renameRules, i);
  }

  /** The names of the built children: the definitions' names and the
      renamed flags, nothing else. */
  lemma TranslationNames(def: Translation, registry: map<string, Ctor>, n: string)
    requires WellFormedTranslation(def) && TranslationFuncs(def, registry).Ok?
    ensures n in TranslationFuncs(def, registry).value.entries <==>
            n in def.funcs.value.entries || exists f :: f in OrEmpty(def.refFlags) + OrEmpty(def.flags) && Renamed(f, def.renameRules) == n
  {
    var defs := def.funcs.value;
    assert forall m :: m in defs.keys ==> m in defs.entries;
    var built := Collect(defs.keys, Builds(defs.keys, defs.entries, registry)).value;
    AssembleNames(built, OrEmpty(def.refFlags), OrEmpty(def.flags), def.renameRules, n);
    if n in defs.entries {
      var i :| 0 <= i < |defs.keys| && defs.keys[i] == n;
      assert built[i].0 == n;
    }
  }

  /** The loop of `from_yaml` over the definitions of `funcs`, given what
      `init_fromDict` makes of each: store each functor under its name, and
      stop at the first definition that failed. */
  method StoreBuilt(names: seq<string>, results: seq<Result<Functor>>) returns (r: Result<Dict<Functor>>)
    requires |results| == |names|
    ensures Collect(names, results).Err? ==> r == Err(Collect(names, results).error)
    ensures Collect(names, results).Ok? ==> r == Ok(PutPairs(Empty(), Collect(names, results).value))
  {
    var funcs := Empty();
    var pairs: seq<(string, Functor)> := [];
    for i := 0 to |names|
      invariant Collect(names[..i], results[..i]) == Ok(pairs)
      invariant funcs == PutPairs(Empty(), pairs)
    {
      assert names[..i + 1][..i] == names[..i] && results[..i + 1][..i] == results[..i];
      var f := results[i];
      if f.Err? {
        CollectStopsAtFailure(names, results, i + 1);
        return Err(f.error);
      }
      assert (pairs + [(names[i], f.value)])[..|pairs|] == pairs;
      pairs := pairs + [(names[i], f.value)];
      funcs := Put(funcs, names[i], f.value);
    }
    assert names[..|names|] == names && results[..|names|] == results;
    return Ok(funcs);
  }

  /** The loop of `from_yaml` over a flag list: `funcs[renameCol(flag)] =
      Column(flag, dataset=...)` for each flag in order. */
  method AddFlags(base: Dict<Functor>, flags: seq<string>, rules: Option<seq<(string, string)>>, dataset: string) returns (funcs: Dict<Functor>)
    requires base.Valid()
    ensures funcs == PutPairs(base, FlagColumns(flags, rules, dataset))
  {
    funcs := base;
    assert flags[..0] == [];
    for i := 0 to |flags|
      invariant funcs == PutPairs(base, FlagColumns(flags[..i], rules, dataset))
    {
      var name := CompositeFunctor.RenameCol(flags[i], rules);
      FlagColumnsSnoc(flags, i, rules, dataset);
      PutPairsSnoc(base, FlagColumns(flags[..i], rules, dataset), name, FlagColumn(flags[i], dataset));
      funcs := Put(funcs, name, FlagColumn(flags[i], dataset));
    }
    assert flags[..|flags|] == flags;
  }

  /** The argument of `update`: a dict, another composite, or anything else. */
  datatype Mergeable = DictArg(d: Dict<Functor>) | CompositeArg(c: CompositeFunctor) | OtherArg

  /** The first argument of the constructor: a dict, or a list keyed by
      shortname. */
  datatype FuncsArg = FuncDict(d: Dict<Functor>) | FuncList(fs: seq<Functor>)

  function Initial(funcs: FuncsArg): (r: Dict<Functor>)
    requires funcs.FuncDict? ==> funcs.d.Valid()
    ensures r.Valid()
    ensures funcs.FuncDict? ==> r == funcs.d
    ensures funcs.FuncList? ==> r == KeyedByShortname(funcs.fs)
  {
    if funcs.FuncDict? then funcs.d else KeyedByShortname(funcs.fs)
  }

  class CompositeFunctor {
    var funcDict: Dict<Functor>
    var filtField: Option<string>  // `_filt`, read through the `filt` property
    var dataset: string
    var noDupArg: Option<bool>

    ghost predicate Valid()
      reads this
    {
      funcDict.Valid() && FiltPushed(funcDict, filtField)
    }

    /** `CompositeFunctor.__init__(funcs, filt=None, dataset=None,
        noDup=None)`: `Functor.__init__` assigns `filt` through the setter,
        so a filter given here reaches every child. */
    constructor (funcs: FuncsArg, filt: Option<string>, dataset: Option<string>, noDup: Option<bool>)
      requires funcs.FuncDict? ==> funcs.d.Valid()
      ensures Valid()
      ensures funcDict == Pushed(Initial(funcs), filt) && filtField == filt
      ensures this.dataset == (if dataset.Some? then dataset.value else "ref")
      ensures noDupArg == noDup
    {
      funcDict := Initial(funcs);
      filtField := None;
      this.dataset := if dataset.Some? then dataset.value else "ref";
      noDupArg := noDup;
      new;
      SetFilt(filt);
    }

    /** The `filt` setter: a filter overwrites every child's, whatever it
        was; `None` leaves the children alone. */
    method SetFilt(filt: Option<string>)
      requires funcDict.Valid()
      modifies this
      ensures Valid()
      ensures funcDict == Pushed(old(funcDict), filt) && filtField == filt
      ensures dataset == old(dataset) && noDupArg == old(noDupArg)
    {
      if filt.Some? {
        ghost var d0 := funcDict;
        var keys := funcDict.keys;
        for i := 0 to |keys|
          invariant funcDict.keys == keys && funcDict.Valid()
          invariant dataset == old(dataset) && noDupArg == old(noDupArg)
          invariant forall k :: k in funcDict.entries <==> k in d0.entries
          invariant forall k :: k in d0.entries ==>
                      funcDict.entries[k] == if k in keys[..i] then WithFilt(d0.entries[k], filt.value) else d0.entries[k]
        {
          var k := keys[i];
          assert k !in keys[..i];
          assert keys[..i + 1] == keys[..i] + [k];
          funcDict := Dict(keys, funcDict.entries[k := WithFilt(funcDict.entries[k], filt.value)]);
        }
        assert keys[..|keys|] == keys;
        assert funcDict.entries == PushFilt(d0, filt.value).entries;
      }
      filtField := filt;
    }

    /** `update`: only a dict or a composite can be merged; their entries
        overwrite on a shared key, and the stored filter is applied again
        so that the new children carry it too. */
    method Update(other: Mergeable) returns (r: Result<()>)
      requires Valid()
      requires other.DictArg? ==> other.d.Valid()
      requires other.CompositeArg? ==> other.c.funcDict.Valid()
      modifies this
      ensures Valid()
      ensures other.OtherArg? ==> r == Err(NotMergeable) && funcDict == old(funcDict)
      ensures other.DictArg? ==> r == Ok(()) && funcDict == Pushed(OrderedDicts.Update(old(funcDict), other.d), old(filtField))
      ensures other.CompositeArg? ==>
                r == Ok(()) && funcDict == Pushed(OrderedDicts.Update(old(funcDict), old(other.c.funcDict)), old(filtField))
      ensures filtField == old(filtField) && dataset == old(dataset) && noDupArg == old(noDupArg)
    {
      if other.OtherArg? {
        return Err(NotMergeable);
      }
      var incoming := if other.DictArg? then other.d else other.c.funcDict;
      funcDict := OrderedDicts.Update(funcDict, incoming);
      if filtField.Some? {
        SetFilt(filtField);
      }
      r := Ok(());
    }

    /** The `columns` property: every column some child needs, once. */
    function Columns(): (r: Result<seq<string>>)
      requires Valid()
      reads this
      ensures r.Err? <==> exists k :: k in funcDict.entries && funcDict.entries[k].kind.Base?
      ensures r.Ok? ==> NoDuplicates(r.value)
      ensures r.Ok? ==> forall c :: c in r.value <==>
                exists k :: k in funcDict.entries && c in Functors.Columns(funcDict.entries[k]).value
    {
      var all :- ChildrenColumns(Values(funcDict));
      assert forall c :: c in all <==> exists k :: k in funcDict.entries && c in Functors.Columns(funcDict.entries[k]).value by {
        forall c ensures c in all <==> exists k :: k in funcDict.entries && c in Functors.Columns(funcDict.entries[k]).value {
          if exists k :: k in funcDict.entries && c in Functors.Columns(funcDict.entries[k]).value {
            var k :| k in funcDict.entries && c in Functors.Columns(funcDict.entries[k]).value;
            var i :| 0 <= i < |funcDict.keys| && funcDict.keys[i] == k;
            assert Values(funcDict)[i] == funcDict.entries[k];
          }
        }
      }
      Ok(Dedup(all))
    }

    /** The `multilevelColumns` of a composite: every key some child
        resolves, once; a child whose resolution fails makes it raise. */
    function MultilevelColumns(t: Table): (r: Result<seq<Key>>)
      requires Valid() && t.Multilevel?
      reads this
      ensures r.Err? <==> exists k :: k in funcDict.entries && Functors.MultilevelColumns(funcDict.entries[k], t).Err?
      ensures r.Ok? ==> NoDuplicates(r.value)
      ensures r.Ok? ==> forall key :: key in r.value <==>
                exists k :: k in funcDict.entries && key in Functors.MultilevelColumns(funcDict.entries[k], t).value
    {
      var all := ChildrenKeys(Values(funcDict), t);
      if all.Err? then
        var i :| 0 <= i < |funcDict.keys| && Functors.MultilevelColumns(Values(funcDict)[i], t) == Err(all.error);
        Err(all.error)
      else
        assert forall key :: key in all.value <==>
            exists k :: k in funcDict.entries && key in Functors.MultilevelColumns(funcDict.entries[k], t).value by {
          forall key ensures key in all.value <==>
              exists k :: k in funcDict.entries && key in Functors.MultilevelColumns(funcDict.entries[k], t).value {
            if exists k :: k in funcDict.entries && key in Functors.MultilevelColumns(funcDict.entries[k], t).value {
              var k :| k in funcDict.entries && key in Functors.MultilevelColumns(funcDict.entries[k], t).value;
              var i :| 0 <= i < |funcDict.keys| && funcDict.keys[i] == k;
              assert Values(funcDict)[i] == funcDict.entries[k];
            }
          }
        }
        Ok(Dedup(all.value))
    }

    /** `__call__(parq, dropna=...)`: one bulk load, then a pass over the
        children that fills the result columns in key order. */
    method Call(t: Table, dropna: bool, env: Env) returns (r: Result<ResultTable>)
      requires Valid()
      ensures r == Evaluation(funcDict, t, dropna, env)
    {
      var fs := Values(funcDict);
      if t.Plain? {
        var names := ChildrenColumns(fs);
        if names.Err? {
          return Err(names.error);
        }
        var loaded := LoadPlain(t, Dedup(names.value));
        if loaded.Err? {
          return Err(loaded.error);
        }
        var cols := PlainResults(fs, loaded.value, env);
        if cols.Err? {
          return Err(cols.error);
        }
        return Concat(funcDict.keys, loaded.value.index, cols.value, dropna);
      }
      var keys := ChildrenKeys(fs, t);
      if keys.Err? {
        return Err(keys.error);
      }
      var loaded := LoadMultilevel(t, Dedup(keys.value));
      if loaded.Err? {
        return Err(loaded.error);
      }
      var cols := CollectMultilevel(fs, t, loaded.value, env);
      if cols.Err? {
        return Err(cols.error);
      }
      r := Concat(funcDict.keys, loaded.value.index, cols.value, dropna);
    }

    /** `renameCol`: each rule in order, fired when the name starts with its
        old prefix. */
    static method RenameCol(col: string, rules: Option<seq<(string, string)>>) returns (r: string)
      ensures r == Renamed(col, rules)
    {
      if rules.None? {
        return col;
      }
      var rs := rules.value;
      r := col;
      for i := 0 to |rs|
        invariant ApplyRules(col, rs) == ApplyRules(r, rs[i..])
      {
        assert rs[i..][1..] == rs[i + 1..];
        if StartsWith(r, rs[i].0) {
          r := ReplaceAll(r, rs[i].0, rs[i].1);
        }
      }
      assert rs[|rs|..] == [];
    }

    /** `from_yaml`: build the children of a translation, then a composite of
        them with the given keyword arguments. */
    static method FromYaml(def: Translation, registry: map<string, Ctor>, filt: Option<string>, dataset: Option<string>, noDup: Option<bool>)
      returns (r: Result<CompositeFunctor>)
      requires WellFormedTranslation(def)
      ensures TranslationFuncs(def, registry).Err? ==> r == Err(TranslationFuncs(def, registry).error)
      ensures TranslationFuncs(def, registry).Ok? ==>
                r.Ok? && fresh(r.value) && r.value.Valid() &&
                r.value.funcDict == Pushed(TranslationFuncs(def, registry).value, filt) && r.value.filtField == filt
      ensures r.Ok? ==> r.value.dataset == (if dataset.Some? then dataset.value else "ref") && r.value.noDupArg == noDup
    {
      if def.funcs.None? {
        return Err(MissingEntry("funcs"));
      }
      var defs := def.funcs.value;
      assert forall n :: n in defs.keys ==> n in defs.entries;
      var built := StoreBuilt(defs.keys, Builds(defs.keys, defs.entries, registry));
      if built.Err? {
        return Err(built.error);
      }
      var funcs := AddFlags(built.value, OrEmpty(def.refFlags), def.renameRules, "ref");
      funcs := AddFlags(funcs, OrEmpty(def.flags), def.renameRules, "meas");
      var c := new CompositeFunctor(FuncDict(funcs), filt, dataset, noDup);
      r := Ok(c);
    }
  }
}
