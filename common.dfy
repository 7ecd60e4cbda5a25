/** Shared vocabulary of the functor model: optional values, results that
    carry the error the Python code would raise, and the few string and
    sequence helpers that several modules use. */
module Common {

  datatype Option<+T> = None | Some(value: T)

  /** The Python exception classes that the modelled code raises. */
  datatype ExceptionClass =
    | ValueError
    | TypeError
    | KeyError
    | IndexError
    | AttributeError
    | ImportError
    | NotImplementedError
    | RuntimeError
    | UnboundLocalError
    | AnyException  // whatever a foreign transform raises

  /** One constructor per distinct way the modelled code fails. */
  datatype Error =
    | ColumnsUndefined                           // NotImplementedError from `Functor.columns`
    | LevelMismatch(got: seq<string>)            // ValueError: column levels differ from the expected set
    | FilterNotSet(dataset: string)              // ValueError: `filt` unset and dataset is not 'ref'
    | NoFilterLevel                              // KeyError: `columnLevelNames` has no 'filter' entry
    | EmptyFilterLevel                           // IndexError: the table lists no filter
    | MissingColumn(column: string)              // KeyError from the bulk load
    | Unbound(cause: Error)                      // UnboundLocalError: `fail(df)` reached with `df` unset
    | TransformRaised                            // an exception escaping a transform
    | NothingToConcat                            // ValueError: `pd.concat` of an empty dict
    | NotMergeable                               // TypeError from `CompositeFunctor.update`
    | MissingEntry(key: string)                  // KeyError on a dictionary lookup or pop
    | UnknownType(typeName: string)              // ImportError from the type lookup
    | BadArguments(detail: string)               // TypeError from Python argument binding
    | NoAttribute(detail: string)                // AttributeError (a name that is not a string, a calib that is)
    | SameFilters(col: string)                   // RuntimeError from the `Color` constructor
    | Construction(name: string, typeName: string, cause: Error)  // re-raised as the class of `cause`
    | TupleItemAssignment                        // TypeError: item assignment on a tuple
    | LabelArithmetic                            // TypeError: subtracting a string label

  /** The exception class a caller sees for each error. */
  function ClassOf(e: Error): ExceptionClass
  {
    match e
    case ColumnsUndefined => NotImplementedError
    case LevelMismatch(_) => ValueError
    case FilterNotSet(_) => ValueError
    case NoFilterLevel => KeyError
    case EmptyFilterLevel => IndexError
    case MissingColumn(_) => KeyError
    case Unbound(_) => UnboundLocalError
    case TransformRaised => AnyException
    case NothingToConcat => ValueError
    case NotMergeable => TypeError
    case MissingEntry(_) => KeyError
    case UnknownType(_) => ImportError
    case BadArguments(_) => TypeError
    case NoAttribute(_) => AttributeError
    case SameFilters(_) => RuntimeError
    case Construction(_, _, cause) => ClassOf(cause)
    case TupleItemAssignment => TypeError
    case LabelArithmetic => TypeError
  }

  datatype Result<+T> = Ok(value: T) | Err(error: Error) {
    predicate IsFailure() { Err? }

    function PropagateFailure<U>(): Result<U>
      requires Err?
    {
      Err(error)
    }

    function Extract(): T
      requires Ok?
    {
      value
    }
  }

  predicate StartsWith(s: string, prefix: string)
  {
    |prefix| <= |s| && s[..|prefix|] == prefix
  }

  predicate EndsWith(s: string, suffix: string)
  {
    |suffix| <= |s| && s[|s| - |suffix|..] == suffix
  }

  predicate NoDuplicates<T(==)>(s: seq<T>)
  {
    forall i, j :: 0 <= i < j < |s| ==> s[i] != s[j]
  }

  /** The elements of `s` without repetitions, in first-seen order. */
  function Dedup<T(==,!new)>(s: seq<T>): (r: seq<T>)
    ensures NoDuplicates(r)
    ensures forall x :: x in r <==> x in s
    decreases |s|
  {
    if s == [] then []
    else
      var rest := Dedup(s[..|s| - 1]);
      if s[|s| - 1] in rest then rest else rest + [s[|s| - 1]]
  }

  /** The elements of `s` that satisfy `keep`, in order. */
  function Filter<T(!new)>(s: seq<T>, keep: T -> bool): (r: seq<T>)
    ensures forall x :: x in r <==> x in s && keep(x)
    decreases |s|
  {
    if s == [] then []
    else (if keep(s[0]) then [s[0]] else []) + Filter(s[1..], keep)
  }

  /** Strictly increasing positions. */
  predicate Increasing(s: seq<nat>)
  {
    forall i, j :: 0 <= i < j < |s| ==> s[i] < s[j]
  }

  /** Filtering a sequence grown by one element. */
  lemma {:induction false} FilterSnoc<T(!new)>(s: seq<T>, x: T, keep: T -> bool)
    ensures Filter(s + [x], keep) == Filter(s, keep) + (if keep(x) then [x] else [])
    decreases |s|
  {
    if s == [] {
      assert s + [x] == [x];
    } else {
      assert (s + [x])[1..] == s[1..] + [x];
      FilterSnoc(s[1..], x, keep);
    }
  }

  lemma IncreasingCons(x: nat, rest: seq<nat>)
    requires Increasing(rest) && forall y :: y in rest ==> x < y
    ensures Increasing([x] + rest)
  {
    forall i, j | 0 <= i < j < |[x] + rest| ensures ([x] + rest)[i] < ([x] + rest)[j] {
      assert ([x] + rest)[j] == rest[j - 1] && rest[j - 1] in rest;
      if i > 0 {
        assert ([x] + rest)[i] == rest[i - 1];
      }
    }
  }

  lemma {:induction false} FilterIncreasing(s: seq<nat>, keep: nat -> bool)
    requires Increasing(s)
    ensures Increasing(Filter(s, keep))
    decreases |s|
  {
    if s != [] {
      assert Increasing(s[1..]) by {
        forall i, j | 0 <= i < j < |s[1..]| ensures s[1..][i] < s[1..][j] {
          assert s[1..][i] == s[i + 1] && s[1..][j] == s[j + 1];
        }
      }
      FilterIncreasing(s[1..], keep);
      var rest := Filter(s[1..], keep);
      if keep(s[0]) {
        forall y | y in rest ensures s[0] < y {
          var i :| 0 <= i < |s[1..]| && s[1..][i] == y;
          assert s[i + 1] == y;
        }
        IncreasingCons(s[0], rest);
      }
    }
  }
}
