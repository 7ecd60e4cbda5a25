/** The tables a functor reads and the data frames it computes on.

    A `MultilevelParquetTable` is a table whose columns are addressed by a
    (filter, dataset, column) key; a plain `ParquetTable` addresses columns by
    name. Both share one row index. A loaded frame keeps its columns as a list,
    as pandas does, each under a key from which the dropped levels are gone. */
module Frames {
  import opened Common

  type RowId = int

  /** One cell: a number, the missing-value sentinel (NaN), or a category label. */
  datatype Value = Num(x: real) | Missing | Label(text: string)

  /** A column key of a three-level table, addressed by level name. */
  datatype Key = Key(filter: string, dataset: string, column: string)

  /** A column key of a loaded frame; a level that was dropped is `None`. */
  datatype FrameKey = FrameKey(filter: Option<string>, dataset: Option<string>, column: string)

  function FullKey(k: Key): FrameKey
  {
    FrameKey(Some(k.filter), Some(k.dataset), k.column)
  }

  function NameKey(c: string): FrameKey
  {
    FrameKey(None, None, c)
  }

  datatype Table =
    | Multilevel(levels: seq<string>, levelNames: map<string, seq<string>>,
                 cells: map<Key, seq<Value>>, index: seq<RowId>)
    | Plain(columns: map<string, seq<Value>>, index: seq<RowId>)

  datatype Column = Column(key: FrameKey, vals: seq<Value>)

  datatype Frame = Frame(index: seq<RowId>, cols: seq<Column>)

  /** What a transform (`_func`, `df.eval`) does with a frame: it yields one
      value per row, or it raises. */
  datatype Outcome = Computed(vals: seq<Value>) | Raised

  /** A result column aligned with a row index. */
  datatype Series = Series(index: seq<RowId>, vals: seq<Value>) {
    predicate Valid() { |index| == |vals| }
  }

  function ToSet<T>(s: seq<T>): set<T>
  {
    set x | x in s
  }

  /** `toDataFrame(columns=keys, droplevels=False)` on a multilevel table:
      exactly the requested columns, in the requested order, over all rows; a
      key the table lacks makes the load fail. */
  function LoadMultilevel(t: Table, keys: seq<Key>): (r: Result<Frame>)
    requires t.Multilevel?
    ensures r.Ok? <==> forall k :: k in keys ==> k in t.cells
    ensures r.Ok? ==> r.value.index == t.index && |r.value.cols| == |keys|
    ensures r.Ok? ==> forall i :: 0 <= i < |keys| ==> r.value.cols[i] == Column(FullKey(keys[i]), t.cells[keys[i]])
    ensures r.Err? ==> r.error.MissingColumn?
    decreases |keys|
  {
    if keys == [] then Ok(Frame(t.index, []))
    else if keys[0] !in t.cells then Err(MissingColumn(keys[0].column))
    else
      var rest :- LoadMultilevel(t, keys[1..]);
      Ok(Frame(t.index, [Column(FullKey(keys[0]), t.cells[keys[0]])] + rest.cols))
  }

  /** `toDataFrame(columns=names)` on a plain table. */
  function LoadPlain(t: Table, names: seq<string>): (r: Result<Frame>)
    requires t.Plain?
    ensures r.Ok? <==> forall c :: c in names ==> c in t.columns
    ensures r.Ok? ==> r.value.index == t.index && |r.value.cols| == |names|
    ensures r.Ok? ==> forall i :: 0 <= i < |names| ==> r.value.cols[i] == Column(NameKey(names[i]), t.columns[names[i]])
    ensures r.Err? ==> r.error.MissingColumn?
    decreases |names|
  {
    if names == [] then Ok(Frame(t.index, []))
    else if names[0] !in t.columns then Err(MissingColumn(names[0]))
    else
      var rest :- LoadPlain(t, names[1..]);
      Ok(Frame(t.index, [Column(NameKey(names[0]), t.columns[names[0]])] + rest.cols))
  }

  /** `df[key]`: the first column stored under `key`. */
  function Lookup(cols: seq<Column>, key: FrameKey): (r: Option<seq<Value>>)
    ensures r.None? <==> forall i :: 0 <= i < |cols| ==> cols[i].key != key
    ensures r.Some? ==> exists i :: 0 <= i < |cols| && cols[i] == Column(key, r.value)
    decreases |cols|
  {
    if cols == [] then None
    else if cols[0].key == key then Some(cols[0].vals)
    else
      var r := Lookup(cols[1..], key);
      assert r.Some? ==> exists i :: 0 <= i < |cols[1..]| && cols[1..][i] == Column(key, r.value);
      r
  }

  /** `df[keys]`: the listed columns, in the listed order, over the same rows. */
  function Select(df: Frame, keys: seq<FrameKey>): (r: Result<Frame>)
    ensures r.Ok? <==> forall i :: 0 <= i < |keys| ==> Lookup(df.cols, keys[i]).Some?
    ensures r.Ok? ==> r.value.index == df.index && |r.value.cols| == |keys|
    ensures r.Ok? ==> forall i :: 0 <= i < |keys| ==> r.value.cols[i] == Column(keys[i], Lookup(df.cols, keys[i]).value)
    decreases |keys|
  {
    if keys == [] then Ok(Frame(df.index, []))
    else
      match Lookup(df.cols, keys[0])
      case None => Err(MissingColumn(keys[0].column))
      case Some(v) =>
        var rest :- Select(df, keys[1..]);
        Ok(Frame(df.index, [Column(keys[0], v)] + rest.cols))
  }

  /** A key with the filter and/or dataset level dropped. */
  function Project(k: FrameKey, keepFilter: bool, keepDataset: bool): FrameKey
  {
    FrameKey(if keepFilter then k.filter else None, if keepDataset then k.dataset else None, k.column)
  }

  /** `df.columns = df.columns.droplevel(...)`: same rows, same values, keys
      without the dropped levels. */
  function DropLevels(df: Frame, keepFilter: bool, keepDataset: bool): (r: Frame)
    ensures r.index == df.index && |r.cols| == |df.cols|
    ensures forall i :: 0 <= i < |df.cols| ==>
              r.cols[i] == Column(Project(df.cols[i].key, keepFilter, keepDataset), df.cols[i].vals)
  {
    Frame(df.index, seq(|df.cols|, i requires 0 <= i < |df.cols| =>
      Column(Project(df.cols[i].key, keepFilter, keepDataset), df.cols[i].vals)))
  }

  /** A column holding the missing-value sentinel in each of `n` rows. */
  function AllMissing(n: nat): (r: seq<Value>)
    ensures |r| == n && forall i :: 0 <= i < n ==> r[i] == Missing
  {
    seq(n, _ => Missing)
  }

  /** The (row id, value) pairs of a series. */
  function Rows(s: Series): (r: seq<(RowId, Value)>)
    requires s.Valid()
    ensures |r| == |s.index| && forall i :: 0 <= i < |r| ==> r[i] == (s.index[i], s.vals[i])
  {
    seq(|s.index|, i requires 0 <= i < |s.index| => (s.index[i], s.vals[i]))
  }

  function Unzip(rows: seq<(RowId, Value)>): (s: Series)
    ensures s.Valid() && Rows(s) == rows
  {
    Series(seq(|rows|, i requires 0 <= i < |rows| => rows[i].0), seq(|rows|, i requires 0 <= i < |rows| => rows[i].1))
  }

  /** `Series.dropna()`: the rows whose value is not missing, in order. */
  function DropMissing(s: Series): (r: Series)
    requires s.Valid()
    ensures r.Valid()
    ensures Rows(r) == Filter(Rows(s), (row: (RowId, Value)) => row.1 != Missing)
  {
    Unzip(Filter(Rows(s), (row: (RowId, Value)) => row.1 != Missing))
  }
}
