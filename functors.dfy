/** A single functor: which columns it needs, how it resolves them against a
    multilevel table, how it loads them, and what calling it yields,
    including the failure paths of `Functor.__call__`.

    A functor is a value: its kind (the Python subclass and the constructor
    arguments it keeps), its `filt`, its `dataset` and its `noDup` argument.
    The numeric transforms (`Mag`, `MagErr`, `NanoMaggie`, `MagDiff`,
    `Color`, `NumStarLabeller`) and `DataFrame.eval` are uninterpreted: an
    `Env` supplies them. */
module Functors {
  import opened Common
  import opened Frames
  import opened Names
  import opened Expressions

  datatype Kind =
    | Base                                       // `Functor` itself: no columns, no calculation
    | ColumnOf(col: string)                      // `Column`
    | Custom(expr: string)                       // `CustomFunctor`
    | Mag(col: string)                           // `col` is already a flux column name
    | MagErr(col: string)
    | NanoMaggie(col: string)
    | MagDiff(col1: string, col2: string)
    | Color(col: string, filt2: string, filt1: string)
    | StarGalaxyLabeller
    | NumStarLabeller

  datatype Functor = Functor(kind: Kind, filt: Option<string>, dataset: string, noDupArg: Option<bool>)

  /** The transforms the model does not interpret: the numeric formulas and
      the `NumStarLabeller` binning (`formula`), and `DataFrame.eval` (`eval`). */
  datatype Env = Env(formula: (Functor, Frame) -> Outcome, eval: (Frame, string) -> Outcome)

  /** `_defaultDataset` of each functor class. */
  function DefaultDataset(k: Kind): string
  {
    match k
    case Mag(_) => "meas"
    case MagErr(_) => "meas"
    case NanoMaggie(_) => "meas"
    case MagDiff(_, _) => "meas"
    case Color(_, _, _) => "forced_src"
    case _ => "ref"
  }

  /** `Functor.__init__`: an unset dataset falls back on the class default. */
  function NewFunctor(k: Kind, filt: Option<string>, dataset: Option<string>, noDup: Option<bool>): (f: Functor)
    ensures f.kind == k && f.noDupArg == noDup
    ensures dataset.Some? ==> f.dataset == dataset.value
    ensures dataset.None? ==> f.dataset == DefaultDataset(k)
    ensures !k.Color? ==> Filt(f) == filt
    ensures k.Color? ==> Filt(f).None?
  {
    Functor(k, if k.Color? then None else filt, if dataset.Some? then dataset.value else DefaultDataset(k), noDup)
  }

  /** The `noDup` property: the constructor argument when given, otherwise
      the class default, which only `Color` sets. */
  function NoDup(f: Functor): (r: bool)
    ensures f.noDupArg.Some? ==> r == f.noDupArg.value
    ensures f.noDupArg.None? ==> (r <==> f.kind.Color?)
  {
    if f.noDupArg.Some? then f.noDupArg.value else f.kind.Color?
  }

  /** The `filt` property; `Color` always reports none. */
  function Filt(f: Functor): Option<string>
  {
    if f.kind.Color? then None else f.filt
  }

  /** Assigning `f.filt = filt`; the `Color` setter ignores it. */
  function WithFilt(f: Functor, filt: string): (r: Functor)
    ensures r.kind == f.kind && r.dataset == f.dataset && r.noDupArg == f.noDupArg
    ensures !f.kind.Color? ==> Filt(r) == Some(filt)
    ensures f.kind.Color? ==> r == f
  {
    if f.kind.Color? then f else f.(filt := Some(filt))
  }

  const ExtendednessColumn := "base_ClassificationExtendedness_value"
  const NumStarColumn := "numStarFlags"

  /** The `columns` property. `Functor` itself defines none and raises. */
  function Columns(f: Functor): (r: Result<seq<string>>)
    ensures r.Err? <==> f.kind.Base?
    ensures r.Err? ==> r.error == ColumnsUndefined && ClassOf(r.error) == NotImplementedError
    ensures f.kind.ColumnOf? ==> r == Ok([f.kind.col])
    ensures f.kind.Custom? ==> r == Ok(ExprColumns(f.kind.expr))
    ensures f.kind.Color? ==> r == Ok([f.kind.col, f.kind.col])
  {
    match f.kind
    case Base => Err(ColumnsUndefined)
    case ColumnOf(c) => Ok([c])
    case Custom(e) => Ok(ExprColumns(e))
    case Mag(c) => Ok([c])
    case MagErr(c) => Ok([c, c + "Err"])
    case NanoMaggie(c) => Ok([c])
    case MagDiff(c1, c2) => Ok([c1, c2])
    case Color(c, _, _) => Ok([c, c])
    case StarGalaxyLabeller => Ok([ExtendednessColumn])
    case NumStarLabeller => Ok([NumStarColumn])
  }

  /** Stands for the class object `NotImplementedError` that `Functor.name`
      returns instead of raising it. */
  const UnnamedFunctor := "NotImplementedError"

  /** The `name` property. */
  function Name(f: Functor): (r: string)
    ensures f.kind.ColumnOf? ==> r == f.kind.col
    ensures f.kind.Custom? ==> r == f.kind.expr
    ensures f.kind.Mag? || f.kind.NanoMaggie? ==> r == "mag_" + f.kind.col
    ensures f.kind.MagErr? ==> r == "mag_" + f.kind.col + "_err"
    ensures f.kind.MagDiff? ==> r == "(mag_" + f.kind.col1 + " - mag_" + f.kind.col2 + ")"
    ensures f.kind.Color? ==> r == f.kind.filt2 + " - " + f.kind.filt1 + " (" + f.kind.col + ")"
    ensures f.kind.StarGalaxyLabeller? || f.kind.NumStarLabeller? ==> r == "label"
    ensures f.kind.Base? ==> r == UnnamedFunctor
  {
    match f.kind
    case Base => UnnamedFunctor
    case ColumnOf(c) => c
    case Custom(e) => e
    case Mag(c) => "mag_" + c
    case MagErr(c) => "mag_" + c + "_err"
    case NanoMaggie(c) => "mag_" + c
    case MagDiff(c1, c2) => "(mag_" + c1 + " - mag_" + c2 + ")"
    case Color(c, f2, f1) => f2 + " - " + f1 + " (" + c + ")"
    case StarGalaxyLabeller => "label"
    case NumStarLabeller => "label"
  }

  /** The `shortname` property: the name, except for `MagDiff` and `Color`;
      a colour's filters lose their dashes. */
  function Shortname(f: Functor): (r: string)
    ensures !f.kind.MagDiff? && !f.kind.Color? ==> r == Name(f)
    ensures f.kind.MagDiff? ==> r == "magDiff_" + f.kind.col1 + "_" + f.kind.col2
    ensures f.kind.Color? ==> r == f.kind.col + "_" + Filter(f.kind.filt2, NotDash) + "m" + Filter(f.kind.filt1, NotDash)
  {
    match f.kind
    case MagDiff(c1, c2) => "magDiff_" + c1 + "_" + c2
    case Color(c, f2, f1) =>
      DashesRemoved(f2);
      DashesRemoved(f1);
      c + "_" + ReplaceAll(f2, "-", "") + "m" + ReplaceAll(f1, "-", "")
    case _ => Name(f)
  }

  predicate NotDash(c: char)
  {
    c != '-'
  }

  /** `str.replace('-', '')` keeps exactly the characters that are not
      dashes, in order. */
  lemma {:induction false} DashesRemoved(s: string)
    ensures ReplaceAll(s, "-", "") == Filter(s, NotDash)
    decreases |s|
  {
    if |s| >= 1 {
      DashesRemoved(s[1..]);
      assert s[..1] == [s[0]];
    }
  }

  /** A `Color` shortname is the column, `_`, the second filter, `m` and the
      first filter; no dash follows the column. */
  lemma ColorShortname(f: Functor)
    requires f.kind.Color?
    ensures StartsWith(Shortname(f), f.kind.col + "_")
    ensures forall i :: |f.kind.col| + 1 <= i < |Shortname(f)| ==> Shortname(f)[i] != '-'
  {
    var c, f2, f1 := f.kind.col, f.kind.filt2, f.kind.filt1;
    var tail := Filter(f2, NotDash) + "m" + Filter(f1, NotDash);
    assert Shortname(f) == (c + "_") + tail;
    forall i | |c| + 1 <= i < |Shortname(f)| ensures Shortname(f)[i] != '-' {
      var j := i - |c| - 1;
      assert Shortname(f)[i] == tail[j];
      if j < |Filter(f2, NotDash)| {
        assert tail[j] in Filter(f2, NotDash);
      } else if j > |Filter(f2, NotDash)| {
        assert tail[j] == Filter(f1, NotDash)[j - |Filter(f2, NotDash)| - 1];
        assert tail[j] in Filter(f1, NotDash);
      }
    }
  }

  /** The column levels a multilevel table must have. */
  const ColumnLevels: set<string> := {"filter", "dataset", "column"}

  /** The filter a functor reads from a multilevel table: its own `filt`;
      failing that, for the 'ref' dataset, the first filter the table lists. */
  function ChooseFilter(f: Functor, t: Table): (r: Result<string>)
    requires t.Multilevel?
    ensures Filt(f).Some? ==> r == Ok(Filt(f).value)
    ensures Filt(f).None? && f.dataset != "ref" ==> r == Err(FilterNotSet(f.dataset))
    ensures Filt(f).None? && f.dataset == "ref" ==>
              && ("filter" !in t.levelNames ==> r == Err(NoFilterLevel))
              && ("filter" in t.levelNames && t.levelNames["filter"] == [] ==> r == Err(EmptyFilterLevel))
              && ("filter" in t.levelNames && t.levelNames["filter"] != [] ==> r == Ok(t.levelNames["filter"][0]))
  {
    if Filt(f).Some? then Ok(Filt(f).value)
    else if f.dataset != "ref" then Err(FilterNotSet(f.dataset))
    else if "filter" !in t.levelNames then Err(NoFilterLevel)
    else if t.levelNames["filter"] == [] then Err(EmptyFilterLevel)
    else Ok(t.levelNames["filter"][0])
  }

  /** `multilevelColumns`: the keys to load, one per required column, all
      under the chosen filter and the functor's dataset. `Color` overrides it
      with one key per filter and checks nothing. */
  function MultilevelColumns(f: Functor, t: Table): (r: Result<seq<Key>>)
    requires t.Multilevel?
    ensures f.kind.Color? ==>
              r == Ok([Key(f.kind.filt1, f.dataset, f.kind.col), Key(f.kind.filt2, f.dataset, f.kind.col)])
    ensures !f.kind.Color? && ToSet(t.levels) != ColumnLevels ==> r == Err(LevelMismatch(t.levels))
    ensures !f.kind.Color? && ToSet(t.levels) == ColumnLevels && f.kind.Base? ==> r == Err(ColumnsUndefined)
    ensures !f.kind.Color? && ToSet(t.levels) == ColumnLevels && Columns(f).Ok? && ChooseFilter(f, t).Err? ==>
              r == Err(ChooseFilter(f, t).error)
    ensures !f.kind.Color? && ToSet(t.levels) == ColumnLevels && Columns(f).Ok? && ChooseFilter(f, t).Ok? ==>
              && r.Ok? && |r.value| == |Columns(f).value|
              && forall i :: 0 <= i < |r.value| ==> r.value[i] == Key(ChooseFilter(f, t).value, f.dataset, Columns(f).value[i])
  {
    if f.kind.Color? then
      Ok([Key(f.kind.filt1, f.dataset, f.kind.col), Key(f.kind.filt2, f.dataset, f.kind.col)])
    else if ToSet(t.levels) != ColumnLevels then Err(LevelMismatch(t.levels))
    else
      var cols :- Columns(f);
      var filt :- ChooseFilter(f, t);
      Ok(seq(|cols|, i requires 0 <= i < |cols| => Key(filt, f.dataset, cols[i])))
  }

  /** `_setLevels`: keep only the levels the transform reads (`column`, and
      for `Color` also `filter`). */
  function SetLevels(f: Functor, df: Frame): (r: Frame)
    ensures r.index == df.index && |r.cols| == |df.cols|
    ensures forall i :: 0 <= i < |df.cols| ==>
              && r.cols[i].vals == df.cols[i].vals
              && r.cols[i].key.column == df.cols[i].key.column
              && r.cols[i].key.dataset.None?
              && r.cols[i].key.filter == (if f.kind.Color? then df.cols[i].key.filter else None)
  {
    DropLevels(df, f.kind.Color?, false)
  }

  /** `_get_cols`: resolve, load and re-level the frame the transform reads. */
  function GetCols(f: Functor, t: Table): (r: Result<Frame>)
    ensures r.Ok? ==> r.value.index == t.index
    ensures t.Multilevel? && MultilevelColumns(f, t).Err? ==> r == Err(MultilevelColumns(f, t).error)
    ensures t.Multilevel? && MultilevelColumns(f, t).Ok? && LoadMultilevel(t, MultilevelColumns(f, t).value).Err? ==>
              r == Err(LoadMultilevel(t, MultilevelColumns(f, t).value).error)
    ensures t.Multilevel? && MultilevelColumns(f, t).Ok? && LoadMultilevel(t, MultilevelColumns(f, t).value).Ok? ==>
              r == Ok(SetLevels(f, LoadMultilevel(t, MultilevelColumns(f, t).value).value))
    ensures t.Plain? && Columns(f).Err? ==> r == Err(Columns(f).error)
    ensures t.Plain? && Columns(f).Ok? ==> r == LoadPlain(t, Columns(f).value)
  {
    if t.Multilevel? then
      var keys :- MultilevelColumns(f, t);
      var df :- LoadMultilevel(t, keys);
      Ok(SetLevels(f, df))
    else
      var cols :- Columns(f);
      LoadPlain(t, cols)
  }

  /** `StarGalaxyLabeller._func` on one value: below one half is a star, at
      or above it a galaxy, a missing value gets the null label. */
  function ClassifyExtendedness(v: Value): (r: Value)
    requires !v.Label?
    ensures v.Missing? ==> r == Label("null")
    ensures v.Num? && v.x < 1.0 / 2.0 ==> r == Label("star")
    ensures v.Num? && v.x >= 1.0 / 2.0 ==> r == Label("galaxy")
  {
    match v
    case Missing => Label("null")
    case Num(x) => if x < 1.0 / 2.0 then Label("star") else Label("galaxy")
  }

  predicate NoLabels(vals: seq<Value>)
  {
    forall i :: 0 <= i < |vals| ==> !vals[i].Label?
  }

  /** `_func`: the transform applied to the loaded frame. */
  function Func(f: Functor, df: Frame, env: Env): (r: Outcome)
    ensures f.kind.Base? ==> r.Raised?
    ensures f.kind.ColumnOf? ==>
              (r.Raised? <==> Lookup(df.cols, NameKey(f.kind.col)).None?)
              && (r.Computed? ==> r.vals == Lookup(df.cols, NameKey(f.kind.col)).value)
    ensures f.kind.Custom? ==> r == MagAwareEval(df, f.kind.expr, env.eval)
    ensures f.kind.StarGalaxyLabeller? && Lookup(df.cols, NameKey(ExtendednessColumn)).None? ==> r.Raised?
    ensures f.kind.StarGalaxyLabeller? && Lookup(df.cols, NameKey(ExtendednessColumn)).Some? ==>
              && (r.Raised? <==> !NoLabels(Lookup(df.cols, NameKey(ExtendednessColumn)).value))
              && (r.Computed? ==> |r.vals| == |Lookup(df.cols, NameKey(ExtendednessColumn)).value|)
              && (r.Computed? ==> forall i :: 0 <= i < |r.vals| ==>
                    r.vals[i] == ClassifyExtendedness(Lookup(df.cols, NameKey(ExtendednessColumn)).value[i]))
  {
    match f.kind
    case Base => Raised
    case ColumnOf(c) =>
      (match Lookup(df.cols, NameKey(c))
       case None => Raised
       case Some(v) => Computed(v))
    case Custom(e) => MagAwareEval(df, e, env.eval)
    case StarGalaxyLabeller =>
      (match Lookup(df.cols, NameKey(ExtendednessColumn))
       case None => Raised
       case Some(x) =>
         if NoLabels(x) then Computed(seq(|x|, i requires 0 <= i < |x| && NoLabels(x) => ClassifyExtendedness(x[i])))
         else Raised)
    case _ => env.formula(f, df)
  }

  /** A transform result counts only when it gives one value per row of the
      frame; anything else is treated like a raise. */
  function RowValues(df: Frame, o: Outcome): (r: Option<seq<Value>>)
    ensures r.Some? <==> o.Computed? && |o.vals| == |df.index|
    ensures r.Some? ==> r.value == o.vals
  {
    if o.Computed? && |o.vals| == |df.index| then Some(o.vals) else None
  }

  /** `fail`: a missing value for every row of `df`, on the same index. */
  function Fail(df: Frame): (r: Series)
    ensures r.Valid() && r.index == df.index
    ensures forall i :: 0 <= i < |r.vals| ==> r.vals[i] == Missing
  {
    Series(df.index, AllMissing(|df.index|))
  }

  /** `Functor.__call__`. A raising transform yields `fail(df)`; a raising
      `_get_cols` leaves `df` unbound, so the handler itself raises
      `UnboundLocalError`. Rows are dropped only when asked. */
  function Evaluate(f: Functor, t: Table, dropna: bool, env: Env): (r: Result<Series>)
    ensures GetCols(f, t).Err? ==> r == Err(Unbound(GetCols(f, t).error))
    ensures GetCols(f, t).Ok? ==> r.Ok? && r.value.Valid()
    ensures GetCols(f, t).Ok? && Func(f, GetCols(f, t).value, env).Computed? &&
            |Func(f, GetCols(f, t).value, env).vals| == |GetCols(f, t).value.index| ==>
              var computed := Series(GetCols(f, t).value.index, Func(f, GetCols(f, t).value, env).vals);
              r == Ok(if dropna then DropMissing(computed) else computed)
    ensures GetCols(f, t).Ok? && !(Func(f, GetCols(f, t).value, env).Computed? &&
            |Func(f, GetCols(f, t).value, env).vals| == |GetCols(f, t).value.index|) ==>
              var failed := Fail(GetCols(f, t).value);
              r == Ok(if dropna then DropMissing(failed) else failed)
  {
    match GetCols(f, t)
    case Err(e) => Err(Unbound(e))
    case Ok(df) =>
      var vals := match RowValues(df, Func(f, df, env)) case Some(v) => Series(df.index, v) case None => Fail(df);
      if dropna then Ok(DropMissing(vals)) else Ok(vals)
  }

  predicate IsLabeller(f: Functor)
  {
    f.kind.StarGalaxyLabeller? || f.kind.NumStarLabeller?
  }

  /** Calling a functor: `Labeller.__call__` always passes `dropna=False`. */
  function Call(f: Functor, t: Table, dropna: bool, env: Env): (r: Result<Series>)
    ensures IsLabeller(f) ==> r == Evaluate(f, t, false, env)
    ensures !IsLabeller(f) ==> r == Evaluate(f, t, dropna, env)
  {
    Evaluate(f, t, if IsLabeller(f) then false else dropna, env)
  }

  /** When the columns load but the transform raises, the call yields a
      missing value for every row of the table, on the table's index. */
  lemma CallContainsTransformFailure(f: Functor, t: Table, env: Env)
    requires GetCols(f, t).Ok?
    requires RowValues(GetCols(f, t).value, Func(f, GetCols(f, t).value, env)).None?
    ensures Call(f, t, false, env) == Ok(Series(t.index, AllMissing(|t.index|)))
  {
  }

  /** When the columns cannot be loaded the failure escapes the call, as an
      `UnboundLocalError`, whatever `dropna` is. */
  lemma CallDoesNotContainLoadFailure(f: Functor, t: Table, dropna: bool, env: Env)
    requires GetCols(f, t).Err?
    ensures Call(f, t, dropna, env).Err?
    ensures ClassOf(Call(f, t, dropna, env).error) == UnboundLocalError
  {
  }

  /** Without `dropna` every row of the table is kept, in order; with it, the
      rows are those without a missing value, in the same order. */
  lemma CallRows(f: Functor, t: Table, env: Env)
    requires !IsLabeller(f)
    requires Call(f, t, false, env).Ok?
    ensures Call(f, t, false, env).value.index == t.index
    ensures Call(f, t, true, env).Ok?
    ensures Rows(Call(f, t, true, env).value) ==
            Filter(Rows(Call(f, t, false, env).value), (row: (RowId, Value)) => row.1 != Missing)
  {
  }

  /** A labeller keeps every row even when asked to drop missing values. */
  lemma LabellerKeepsRows(f: Functor, t: Table, env: Env)
    requires IsLabeller(f)
    ensures Call(f, t, true, env) == Call(f, t, false, env)
    ensures Call(f, t, true, env).Ok? ==> Call(f, t, true, env).value.index == t.index
  {
  }

  /** `StarGalaxyLabeller` on a table whose extendedness column loads and
      holds numbers or missing values: one label per row. */
  lemma StarGalaxyLabels(f: Functor, t: Table, env: Env, dropna: bool)
    requires f.kind.StarGalaxyLabeller?
    requires t.Plain? && ExtendednessColumn in t.columns
    requires |t.columns[ExtendednessColumn]| == |t.index|
    requires NoLabels(t.columns[ExtendednessColumn])
    ensures Call(f, t, dropna, env).Ok?
    ensures Call(f, t, dropna, env).value.index == t.index
    ensures forall i :: 0 <= i < |t.index| ==>
              Call(f, t, dropna, env).value.vals[i] == ClassifyExtendedness(t.columns[ExtendednessColumn][i])
  {
    var df := LoadPlain(t, [ExtendednessColumn]).value;
    assert df.cols[0] == Column(NameKey(ExtendednessColumn), t.columns[ExtendednessColumn]);
    assert Lookup(df.cols, NameKey(ExtendednessColumn)) == Some(t.columns[ExtendednessColumn]);
  }

  /** `a - b` on two series: pandas aligns them on their row ids. When the
      indexes are equal the values subtract row by row; otherwise the result
      covers each id of either index once, and an id missing from one side
      gives a missing value. Subtracting labels raises. */
  function Minus(a: Series, b: Series): (r: Result<Series>)
    requires a.Valid() && b.Valid()
    ensures r.Ok? ==> r.value.Valid()
    ensures r.Ok? && a.index == b.index ==> r.value.index == a.index
    ensures r.Ok? && a.index == b.index ==>
              forall i :: 0 <= i < |a.vals| ==> SubValue(a.vals[i], b.vals[i]) == Some(r.value.vals[i])
    ensures r.Err? <==> (exists i :: 0 <= i < |a.vals| && a.vals[i].Label?) || (exists i :: 0 <= i < |b.vals| && b.vals[i].Label?)
    ensures r.Err? ==> ClassOf(r.error) == TypeError
  {
    if (exists i :: 0 <= i < |a.vals| && a.vals[i].Label?) || (exists i :: 0 <= i < |b.vals| && b.vals[i].Label?) then
      Err(LabelArithmetic)
    else if a.index == b.index then
      Ok(Series(a.index, seq(|a.vals|, i requires 0 <= i < |a.vals| => SubValue(a.vals[i], b.vals[i]).value)))
    else
      var ids := Dedup(a.index + b.index);
      Ok(Series(ids, seq(|ids|, i requires 0 <= i < |ids| => SubValue(At(a, ids[i]), At(b, ids[i])).value)))
  }

  /** The value a series holds for row `id` (its first row with that id),
      or a missing value. */
  function At(s: Series, id: RowId): (v: Value)
    requires s.Valid()
    ensures id !in s.index ==> v == Missing
    ensures id in s.index ==> exists i :: 0 <= i < |s.index| && s.index[i] == id && s.vals[i] == v
    decreases |s.index|
  {
    if s.index == [] then Missing
    else if s.index[0] == id then s.vals[0]
    else
      var v := At(Series(s.index[1..], s.vals[1..]), id);
      assert id in s.index[1..] ==> exists i :: 0 <= i < |s.index[1..]| && s.index[1..][i] == id && s.vals[1..][i] == v;
      v
  }

  /** One value minus another; a missing value on either side gives a
      missing value, labels cannot be subtracted. */
  function SubValue(x: Value, y: Value): (r: Option<Value>)
    ensures r.None? <==> x.Label? || y.Label?
    ensures x.Num? && y.Num? ==> r == Some(Num(x.x - y.x))
    ensures (x.Missing? && !y.Label?) || (y.Missing? && !x.Label?) ==> r == Some(Missing)
  {
    if x.Label? || y.Label? then None
    else if x.Num? && y.Num? then Some(Num(x.x - y.x))
    else Some(Missing)
  }

  /** `difference`: the functor called on two tables, one result minus the
      other. */
  function Difference(f: Functor, t1: Table, t2: Table, dropna: bool, env: Env): (r: Result<Series>)
    ensures Call(f, t1, dropna, env).Err? ==> r == Err(Call(f, t1, dropna, env).error)
    ensures Call(f, t1, dropna, env).Ok? && Call(f, t2, dropna, env).Err? ==> r == Err(Call(f, t2, dropna, env).error)
    ensures Call(f, t1, dropna, env).Ok? && Call(f, t2, dropna, env).Ok? ==>
              r == Minus(Call(f, t1, dropna, env).value, Call(f, t2, dropna, env).value)
  {
    var a :- Call(f, t1, dropna, env);
    var b :- Call(f, t2, dropna, env);
    Minus(a, b)
  }

  /** The difference of a numeric result with itself is zero on every row
      that has a value and missing elsewhere, over the same rows. */
  lemma DifferenceWithItself(f: Functor, t: Table, dropna: bool, env: Env)
    requires Call(f, t, dropna, env).Ok?
    requires NoLabels(Call(f, t, dropna, env).value.vals)
    ensures Difference(f, t, t, dropna, env).Ok?
    ensures Difference(f, t, t, dropna, env).value.index == Call(f, t, dropna, env).value.index
    ensures forall i :: 0 <= i < |Call(f, t, dropna, env).value.vals| ==>
              var v := Call(f, t, dropna, env).value.vals[i];
              Difference(f, t, t, dropna, env).value.vals[i] == (if v.Missing? then Missing else Num(0.0))
  {
    var s := Call(f, t, dropna, env).value;
    assert !exists i :: 0 <= i < |s.vals| && s.vals[i].Label?;
  }
}
