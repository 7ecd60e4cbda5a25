/** Building functors from their YAML description: `init_fromDict` with the
    type lookup as an explicit registry of constructors, Python's binding of
    positional and keyword arguments to a constructor's parameters, and the
    constructors' own checks. */
module Loader {
  import opened Common
  import opened OrderedDicts
  import opened Names
  import opened Functors

  /** A value read from YAML. A mapping is kept as its keys, in order: `*`
      spreads only them, and a constructor passed a whole mapping rejects it
      or passes it along. `Other` is any other value a constructor only
      passes along or rejects, such as a number. */
  datatype YamlValue = Str(s: string) | Bool(b: bool) | Null | Seq(items: seq<YamlValue>) | Mapping(keys: seq<string>) | Other

  /** The functor classes the registry can name. */
  datatype Ctor =
    | FunctorCtor | ColumnCtor | CustomCtor | MagCtor | MagErrCtor | NanoMaggieCtor
    | MagDiffCtor | ColorCtor | StarGalaxyCtor | NumStarCtor

  /** The classes of the functor module that the model can build, by name. */
  const Builtins: map<string, Ctor> := map[
    "Functor" := FunctorCtor, "Column" := ColumnCtor, "CustomFunctor" := CustomCtor,
    "Mag" := MagCtor, "MagErr" := MagErrCtor, "NanoMaggie" := NanoMaggieCtor,
    "MagDiff" := MagDiffCtor, "Color" := ColorCtor,
    "StarGalaxyLabeller" := StarGalaxyCtor, "NumStarLabeller" := NumStarCtor]

  /** The class's `__name__`. */
  function ClassName(c: Ctor): string
  {
    match c
    case FunctorCtor => "Functor"
    case ColumnCtor => "Column"
    case CustomCtor => "CustomFunctor"
    case MagCtor => "Mag"
    case MagErrCtor => "MagErr"
    case NanoMaggieCtor => "NanoMaggie"
    case MagDiffCtor => "MagDiff"
    case ColorCtor => "Color"
    case StarGalaxyCtor => "StarGalaxyLabeller"
    case NumStarCtor => "NumStarLabeller"
  }

  /** `doImport` of a class name finds the class of that name: each name
      maps to the class it names, and every class can be named. */
  lemma BuiltinsByName()
    ensures forall n :: n in Builtins ==> ClassName(Builtins[n]) == n
    ensures forall c: Ctor :: ClassName(c) in Builtins && Builtins[ClassName(c)] == c
  {
    forall c: Ctor ensures ClassName(c) in Builtins && Builtins[ClassName(c)] == c {
      match c
      case FunctorCtor =>
      case ColumnCtor =>
      case CustomCtor =>
      case MagCtor =>
      case MagErrCtor =>
      case NanoMaggieCtor =>
      case MagDiffCtor =>
      case ColorCtor =>
      case StarGalaxyCtor =>
      case NumStarCtor =>
    }
  }

  /** A Python parameter list: the parameter names in order, how many of the
      leading ones have no default (every default here is `None`), and
      whether a `**kwargs` collects the other keywords. */
  datatype Signature = Signature(params: seq<string>, required: nat, varKw: bool)

  /** The outcome of binding: a value per named parameter that got one, and
      the keywords left for `**kwargs`. */
  datatype Bound = Bound(values: map<string, YamlValue>, extra: Dict<YamlValue>)

  function IndexOf(s: seq<string>, x: string): (i: nat)
    requires x in s
    ensures i < |s| && s[i] == x && x !in s[..i]
  {
    if s[0] == x then 0 else 1 + IndexOf(s[1..], x)
  }

  /** The keywords, in order: each names a parameter not already filled
      positionally, or goes to `**kwargs`; the first that does neither is a
      `TypeError`. */
  function BindKeywords(sig: Signature, nPos: nat, keys: seq<string>, kwargs: map<string, YamlValue>):
    (r: Result<(map<string, YamlValue>, seq<(string, YamlValue)>)>)
    requires forall k :: k in keys ==> k in kwargs
    ensures r.Err? ==> ClassOf(r.error) == TypeError
    ensures r.Err? <==> exists i :: 0 <= i < |keys| && !KeywordFits(sig, nPos, keys[i])
    ensures r.Ok? ==> forall p :: p in r.value.0 <==> p in keys && p in sig.params
    ensures r.Ok? ==> forall p :: p in r.value.0 ==> r.value.0[p] == kwargs[p]
    ensures r.Ok? ==> forall e :: e in r.value.1 <==> e.0 in keys && e.0 !in sig.params && e.1 == kwargs[e.0]
    ensures r.Ok? ==> forall i :: 0 <= i < |r.value.1| ==> r.value.1[i].0 in keys
    decreases |keys|
  {
    if keys == [] then Ok((map[], []))
    else
      var k := keys[0];
      if !KeywordFits(sig, nPos, k) then
        if k in sig.params then Err(BadArguments("got multiple values for argument " + k))
        else Err(BadArguments("got an unexpected keyword argument " + k))
      else
        var rest :- BindKeywords(sig, nPos, keys[1..], kwargs);
        if k in sig.params then Ok((rest.0[k := kwargs[k]], rest.1))
        else Ok((rest.0, [(k, kwargs[k])] + rest.1))
  }

  /** A keyword binds when it names a parameter not filled positionally, or
      when `**kwargs` takes it. */
  predicate KeywordFits(sig: Signature, nPos: nat, k: string)
  {
    if k in sig.params then IndexOf(sig.params, k) >= nPos else sig.varKw
  }

  /** Python's argument binding for a call `f(*args, **kwargs)`: keyword
      errors first, then too many positional arguments, then a missing
      required one. */
  function Bind(sig: Signature, args: seq<YamlValue>, kwargs: Dict<YamlValue>): (r: Result<Bound>)
    requires NoDuplicates(sig.params) && sig.required <= |sig.params|
    requires kwargs.Valid()
    ensures r.Err? ==> ClassOf(r.error) == TypeError
    ensures (exists i :: 0 <= i < |kwargs.keys| && !KeywordFits(sig, |args|, kwargs.keys[i])) ==> r.Err?
    ensures |args| > |sig.params| ==> r.Err?
    ensures r.Ok? ==> forall i :: 0 <= i < |args| ==> sig.params[i] in r.value.values && r.value.values[sig.params[i]] == args[i]
    ensures r.Ok? ==> forall k :: k in kwargs.entries && k in sig.params ==> k in r.value.values && r.value.values[k] == kwargs.entries[k]
    ensures r.Ok? ==> forall i :: 0 <= i < sig.required ==> sig.params[i] in r.value.values
    ensures r.Ok? ==> r.value.extra.Valid()
    ensures r.Ok? ==> forall k :: k in r.value.extra.entries <==> k in kwargs.entries && k !in sig.params
    ensures (forall i :: 0 <= i < |kwargs.keys| ==> KeywordFits(sig, |args|, kwargs.keys[i]))
            && |args| <= |sig.params|
            && (forall i :: |args| <= i < sig.required ==> sig.params[i] in kwargs.entries)
            ==> r.Ok?
  {
    var kw :- BindKeywords(sig, |args|, kwargs.keys, kwargs.entries);
    if |args| > |sig.params| then Err(BadArguments("too many positional arguments"))
    else BindValues(sig, args, kwargs, kw)
  }

  /** The last step of `Bind`, once the keywords have bound and the
      positional arguments fit: the call fails only on a required parameter
      that neither fills. */
  function BindValues(sig: Signature, args: seq<YamlValue>, kwargs: Dict<YamlValue>,
                      kw: (map<string, YamlValue>, seq<(string, YamlValue)>)): (r: Result<Bound>)
    requires NoDuplicates(sig.params) && |args| <= |sig.params| && sig.required <= |sig.params|
    requires kwargs.Valid()
    requires BindKeywords(sig, |args|, kwargs.keys, kwargs.entries) == Ok(kw)
    ensures r.Err? ==> ClassOf(r.error) == TypeError
    ensures r.Ok? ==> forall i :: 0 <= i < |args| ==> sig.params[i] in r.value.values && r.value.values[sig.params[i]] == args[i]
    ensures r.Ok? ==> forall k :: k in kwargs.entries && k in sig.params ==> k in r.value.values && r.value.values[k] == kwargs.entries[k]
    ensures r.Ok? ==> forall i :: 0 <= i < sig.required ==> sig.params[i] in r.value.values
    ensures r.Ok? ==> r.value.extra.Valid()
    ensures r.Ok? ==> forall k :: k in r.value.extra.entries <==> k in kwargs.entries && k !in sig.params
    ensures (forall i :: |args| <= i < sig.required ==> sig.params[i] in kwargs.entries) ==> r.Ok?
  {
    RequiredFilled(sig, args, kwargs);
    var values := Positional(sig, args) + kw.0;
    if exists i :: 0 <= i < sig.required && sig.params[i] !in values then
      Err(BadArguments("missing a required argument"))
    else
      ExtraKeys(sig, |args|, kwargs, kw.1);
      KeywordsAfterPositionals(sig, args, kwargs);
      Ok(Bound(values, PutPairs(Empty(), kw.1)))
  }

  /** The parameters filled by position. */
  function Positional(sig: Signature, args: seq<YamlValue>): (r: map<string, YamlValue>)
    requires NoDuplicates(sig.params) && |args| <= |sig.params|
    ensures forall i :: 0 <= i < |args| ==> sig.params[i] in r && r[sig.params[i]] == args[i]
    ensures forall p :: p in r ==> p in sig.params[..|args|]
  {
    map i | 0 <= i < |args| :: sig.params[i] := args[i]
  }

  /** A required parameter past the positional arguments is filled when a
      keyword names it. */
  lemma RequiredFilled(sig: Signature, args: seq<YamlValue>, kwargs: Dict<YamlValue>)
    requires NoDuplicates(sig.params) && |args| <= |sig.params| && sig.required <= |sig.params|
    requires kwargs.Valid()
    requires BindKeywords(sig, |args|, kwargs.keys, kwargs.entries).Ok?
    ensures (forall i :: |args| <= i < sig.required ==> sig.params[i] in kwargs.entries) ==>
      forall i :: 0 <= i < sig.required ==>
        sig.params[i] in Positional(sig, args) + BindKeywords(sig, |args|, kwargs.keys, kwargs.entries).value.0
  {
    var kw := BindKeywords(sig, |args|, kwargs.keys, kwargs.entries).value;
    forall i | 0 <= i < sig.required && (forall j :: |args| <= j < sig.required ==> sig.params[j] in kwargs.entries)
      ensures sig.params[i] in Positional(sig, args) + kw.0
    {
      if i >= |args| {
        assert sig.params[i] in kwargs.keys;
        assert sig.params[i] in kw.0;
      }
    }
  }

  /** No keyword names a parameter already filled by position. */
  lemma KeywordsAfterPositionals(sig: Signature, args: seq<YamlValue>, kwargs: Dict<YamlValue>)
    requires NoDuplicates(sig.params) && |args| <= |sig.params|
    requires kwargs.Valid()
    requires BindKeywords(sig, |args|, kwargs.keys, kwargs.entries).Ok?
    ensures forall i :: 0 <= i < |args| ==> sig.params[i] !in BindKeywords(sig, |args|, kwargs.keys, kwargs.entries).value.0
    ensures forall i :: 0 <= i < |args| ==> sig.params[i] in Positional(sig, args) && Positional(sig, args)[sig.params[i]] == args[i]
  {
    var kw := BindKeywords(sig, |args|, kwargs.keys, kwargs.entries).value;
    forall i | 0 <= i < |args| ensures sig.params[i] !in kw.0 {
      IndexOfUnique(sig.params, i);
    }
  }

  lemma {:induction false} IndexOfUnique(s: seq<string>, i: int)
    requires NoDuplicates(s) && 0 <= i < |s|
    ensures IndexOf(s, s[i]) == i
    decreases |s|
  {
    if i > 0 {
      assert s[0] != s[i];
      assert s[1..][i - 1] == s[i];
      IndexOfUnique(s[1..], i - 1);
    }
  }

  /** The keywords left for `**kwargs` are those that name no parameter. */
  lemma ExtraKeys(sig: Signature, nPos: nat, kwargs: Dict<YamlValue>, pairs: seq<(string, YamlValue)>)
    requires kwargs.Valid()
    requires BindKeywords(sig, nPos, kwargs.keys, kwargs.entries).Ok?
    requires BindKeywords(sig, nPos, kwargs.keys, kwargs.entries).value.1 == pairs
    ensures forall k :: k in PutPairs(Empty(), pairs).entries <==> k in kwargs.entries && k !in sig.params
    ensures forall k :: k in PutPairs(Empty(), pairs).entries ==> PutPairs(Empty(), pairs).entries[k] == kwargs.entries[k]
  {
    forall k ensures k in PutPairs(Empty(), pairs).entries <==> k in kwargs.entries && k !in sig.params {
      PutPairsHas(Empty(), pairs, k);
      if k in kwargs.entries && k !in sig.params {
        assert (k, kwargs.entries[k]) in pairs;
      }
      if exists i :: 0 <= i < |pairs| && pairs[i].0 == k {
        var i :| 0 <= i < |pairs| && pairs[i].0 == k;
        assert pairs[i] in pairs;
      }
    }
    forall k | k in PutPairs(Empty(), pairs).entries ensures PutPairs(Empty(), pairs).entries[k] == kwargs.entries[k] {
      PutPairsFromPairs(pairs, k);
    }
  }

  /** A keyword's value in a call, `None` when it was not passed. */
  function Keyword(kwargs: Dict<YamlValue>, p: string): YamlValue
  {
    if p in kwargs.entries then kwargs.entries[p] else Null
  }

  /** What a call passes to parameter `p`: the positional argument in its
      place if there is one, otherwise the keyword of that name, otherwise
      the default `None`. */
  function Passed(params: seq<string>, args: seq<YamlValue>, kwargs: Dict<YamlValue>, p: string): YamlValue
    requires p in params
  {
    var i := IndexOf(params, p);
    if i < |args| then args[i] else Keyword(kwargs, p)
  }

  /** After a successful binding, each parameter holds what the call passed
      to it, and `**kwargs` holds exactly the other keywords. */
  lemma BoundArgs(sig: Signature, args: seq<YamlValue>, kwargs: Dict<YamlValue>)
    requires NoDuplicates(sig.params) && sig.required <= |sig.params|
    requires kwargs.Valid()
    requires Bind(sig, args, kwargs).Ok?
    ensures forall p :: p in sig.params ==> Arg(Bind(sig, args, kwargs).value, p) == Passed(sig.params, args, kwargs, p)
    ensures forall p :: p !in sig.params ==> Keyword(Bind(sig, args, kwargs).value.extra, p) == Keyword(kwargs, p)
    ensures forall p :: p in sig.params ==> Keyword(Bind(sig, args, kwargs).value.extra, p) == Null
  {
    var b := Bind(sig, args, kwargs).value;
    var kw := BindKeywords(sig, |args|, kwargs.keys, kwargs.entries).value;
    assert b == Bound(Positional(sig, args) + kw.0, PutPairs(Empty(), kw.1));
    ExtraKeys(sig, |args|, kwargs, kw.1);
    forall p | p in sig.params ensures Arg(b, p) == Passed(sig.params, args, kwargs, p) {
      BoundArg(sig, args, kwargs, p);
    }
  }

  /** One parameter of a good binding holds what the call passed to it. */
  lemma BoundArg(sig: Signature, args: seq<YamlValue>, kwargs: Dict<YamlValue>, p: string)
    requires NoDuplicates(sig.params) && sig.required <= |sig.params|
    requires kwargs.Valid() && Bind(sig, args, kwargs).Ok? && p in sig.params
    ensures Arg(Bind(sig, args, kwargs).value, p) == Passed(sig.params, args, kwargs, p)
  {
    var b := Bind(sig, args, kwargs).value;
    var kw := BindKeywords(sig, |args|, kwargs.keys, kwargs.entries).value;
    assert b.values == Positional(sig, args) + kw.0;
    var i := IndexOf(sig.params, p);
    if i >= |args| && p !in kwargs.entries {
      forall j | 0 <= j < |args| ensures sig.params[j] != p {
        IndexOfUnique(sig.params, j);
      }
      assert p !in sig.params[..|args|];
    }
  }

  /** A parameter without a value was left to its default, `None`. */
  function Arg(b: Bound, p: string): YamlValue
  {
    if p in b.values then b.values[p] else Null
  }

  /** `filt` and `dataset` as the model keeps them: a string or unset. */
  function OptString(v: YamlValue): (r: Result<Option<string>>)
    ensures v.Str? ==> r == Ok(Some(v.s))
    ensures v.Null? ==> r == Ok(None)
    ensures !v.Str? && !v.Null? ==> r.Err?
  {
    match v
    case Str(s) => Ok(Some(s))
    case Null => Ok(None)
    case _ => Err(BadArguments("not a string"))
  }

  function OptBool(v: YamlValue): (r: Result<Option<bool>>)
    ensures v.Bool? ==> r == Ok(Some(v.b))
    ensures v.Null? ==> r == Ok(None)
    ensures !v.Bool? && !v.Null? ==> r.Err?
  {
    match v
    case Bool(b) => Ok(Some(b))
    case Null => Ok(None)
    case _ => Err(BadArguments("not a boolean"))
  }

  function AsString(v: YamlValue): (r: Result<string>)
    ensures v.Str? <==> r.Ok?
    ensures r.Ok? ==> r.value == v.s
  {
    if v.Str? then Ok(v.s) else Err(BadArguments("not a string"))
  }

  /** `fluxName(col)` on whatever value was passed: anything but a string
      has no `endswith`. */
  function FluxNameOf(v: YamlValue): (r: Result<string>)
    ensures v.Str? <==> r.Ok?
    ensures r.Ok? ==> r.value == FluxName(v.s)
    ensures r.Err? ==> ClassOf(r.error) == AttributeError
  {
    if v.Str? then Ok(FluxName(v.s)) else Err(NoAttribute("endswith"))
  }

  const FunctorSignature := Signature(["filt", "dataset", "noDup"], 0, false)

  /** A passed string, or unset for `None`. */
  function StrOrNone(v: YamlValue): Option<string>
  {
    if v.Str? then Some(v.s) else None
  }

  /** A passed boolean, or unset for `None`. */
  function BoolOrNone(v: YamlValue): Option<bool>
  {
    if v.Bool? then Some(v.b) else None
  }

  /** Each option passed is `None` or of its type. */
  predicate OptionsTyped(args: seq<YamlValue>, kwargs: Dict<YamlValue>)
  {
    var filt := Passed(FunctorSignature.params, args, kwargs, "filt");
    var dataset := Passed(FunctorSignature.params, args, kwargs, "dataset");
    var noDup := Passed(FunctorSignature.params, args, kwargs, "noDup");
    (filt.Str? || filt.Null?) && (dataset.Str? || dataset.Null?) && (noDup.Bool? || noDup.Null?)
  }

  /** `Functor.__init__(filt=None, dataset=None, noDup=None)` finishing the
      construction of a functor of kind `k`: it succeeds exactly when the
      call binds and each option passed is `None` or of its type, and the
      functor then carries the options passed. */
  function InitFunctor(k: Kind, args: seq<YamlValue>, kwargs: Dict<YamlValue>): (r: Result<Functor>)
    requires kwargs.Valid()
    ensures r.Ok? ==> r.value.kind == k
    ensures r.Ok? ==> r.value == NewFunctor(k, StrOrNone(Passed(FunctorSignature.params, args, kwargs, "filt")),
                                               StrOrNone(Passed(FunctorSignature.params, args, kwargs, "dataset")),
                                               BoolOrNone(Passed(FunctorSignature.params, args, kwargs, "noDup")))
  {
    var b :- Bind(FunctorSignature, args, kwargs);
    FunctorArgs(args, kwargs);
    var filt :- OptString(Arg(b, "filt"));
    var dataset :- OptString(Arg(b, "dataset"));
    var noDup :- OptBool(Arg(b, "noDup"));
    Ok(NewFunctor(k, filt, dataset, noDup))
  }

  /** `BoundArgs` for the three options of `Functor.__init__`. */
  lemma FunctorArgs(args: seq<YamlValue>, kwargs: Dict<YamlValue>)
    requires kwargs.Valid() && Bind(FunctorSignature, args, kwargs).Ok?
    ensures Arg(Bind(FunctorSignature, args, kwargs).value, "filt") == Passed(FunctorSignature.params, args, kwargs, "filt")
    ensures Arg(Bind(FunctorSignature, args, kwargs).value, "dataset") == Passed(FunctorSignature.params, args, kwargs, "dataset")
    ensures Arg(Bind(FunctorSignature, args, kwargs).value, "noDup") == Passed(FunctorSignature.params, args, kwargs, "noDup")
  {
    BoundArgs(FunctorSignature, args, kwargs);
  }

  /** `Functor.__init__` succeeds exactly when the call binds and each
      option passed is `None` or of its type. */
  lemma InitFunctorSucceeds(k: Kind, args: seq<YamlValue>, kwargs: Dict<YamlValue>)
    requires kwargs.Valid()
    ensures InitFunctor(k, args, kwargs).Ok? <==> Bind(FunctorSignature, args, kwargs).Ok? && OptionsTyped(args, kwargs)
  {
    if Bind(FunctorSignature, args, kwargs).Ok? {
      var b := Bind(FunctorSignature, args, kwargs).value;
      FunctorArgs(args, kwargs);
      assert OptionsTyped(args, kwargs) <==>
        (Arg(b, "filt").Str? || Arg(b, "filt").Null?) && (Arg(b, "dataset").Str? || Arg(b, "dataset").Null?) &&
        (Arg(b, "noDup").Bool? || Arg(b, "noDup").Null?);
    }
  }

  /** A functor of kind `k` whose options are the keywords of those names. */
  function FromKeywords(k: Kind, kwargs: Dict<YamlValue>): Functor
  {
    NewFunctor(k, StrOrNone(Keyword(kwargs, "filt")), StrOrNone(Keyword(kwargs, "dataset")), BoolOrNone(Keyword(kwargs, "noDup")))
  }

  /** A subclass binds its own parameters and hands the keywords left over to
      `Functor.__init__`, so the functor's options are the call's keywords. */
  lemma OptionsFromKeywords(sig: Signature, args: seq<YamlValue>, kwargs: Dict<YamlValue>, k: Kind)
    requires NoDuplicates(sig.params) && sig.required <= |sig.params|
    requires kwargs.Valid() && Bind(sig, args, kwargs).Ok?
    requires "filt" !in sig.params && "dataset" !in sig.params && "noDup" !in sig.params
    requires InitFunctor(k, [], Bind(sig, args, kwargs).value.extra).Ok?
    ensures InitFunctor(k, [], Bind(sig, args, kwargs).value.extra).value == FromKeywords(k, kwargs)
  {
    BoundArgs(sig, args, kwargs);
    var extra := Bind(sig, args, kwargs).value.extra;
    assert Keyword(extra, "filt") == Keyword(kwargs, "filt");
    assert Keyword(extra, "dataset") == Keyword(kwargs, "dataset");
    assert Keyword(extra, "noDup") == Keyword(kwargs, "noDup");
  }

  /** The kind a `Mag`, `MagErr` or `NanoMaggie` of flux column `col` has. */
  function MagKind(ctor: Ctor, col: string): (k: Kind)
    requires IsMagCtor(ctor)
    ensures CtorOf(k) == ctor && (k.Mag? || k.MagErr? || k.NanoMaggie?) && k.col == col
  {
    if ctor == MagCtor then Mag(col) else if ctor == MagErrCtor then MagErr(col) else NanoMaggie(col)
  }

  predicate IsMagCtor(ctor: Ctor)
  {
    ctor == MagCtor || ctor == MagErrCtor || ctor == NanoMaggieCtor
  }

  /** The classes whose `__init__` takes its own parameters before handing
      the other keywords to `Functor.__init__`. */
  predicate IsSubclassCtor(ctor: Ctor)
  {
    !(ctor == FunctorCtor || ctor == StarGalaxyCtor || ctor == NumStarCtor)
  }

  /** The parameters of a subclass's `__init__`. */
  function SignatureOf(ctor: Ctor): (sig: Signature)
    requires IsSubclassCtor(ctor)
    ensures NoDuplicates(sig.params) && sig.required <= |sig.params| && sig.varKw
    ensures "filt" !in sig.params && "dataset" !in sig.params && "noDup" !in sig.params
  {
    if ctor == ColumnCtor then Signature(["col"], 1, true)
    else if ctor == CustomCtor then Signature(["expr"], 1, true)
    else if ctor == MagDiffCtor then Signature(["col1", "col2"], 2, true)
    else if ctor == ColorCtor then Signature(["col", "filt2", "filt1"], 3, true)
    else Signature(["col", "calib"], 1, true)
  }

  /** A subclass's `__init__` once its arguments are bound: the checks on
      them, then `Functor.__init__` with the keywords left over. `Mag`,
      `MagErr` and `NanoMaggie` take a calibration, which cannot come from
      YAML: any value but `None` lacks `getFluxMag0`. `Color` refuses equal
      filters with a `RuntimeError`, and builds two `Mag(col, filt=...)` on
      the way, so a `filt` keyword clashes with theirs. */
  function FromBound(ctor: Ctor, b: Bound): (r: Result<Functor>)
    requires IsSubclassCtor(ctor) && b.extra.Valid()
    ensures r.Ok? ==> CtorOf(r.value.kind) == ctor && WellFormed(r.value)
    ensures r.Ok? && ctor == ColorCtor ==> "filt" !in b.extra.entries
    decreases ctor == ColorCtor, 1
  {
    if ctor == ColumnCtor then
      var col :- AsString(Arg(b, "col"));
      InitFunctor(ColumnOf(col), [], b.extra)
    else if ctor == CustomCtor then
      var expr :- AsString(Arg(b, "expr"));
      InitFunctor(Custom(expr), [], b.extra)
    else if ctor == MagDiffCtor then
      var col1 :- FluxNameOf(Arg(b, "col1"));
      var col2 :- FluxNameOf(Arg(b, "col2"));
      InitFunctor(MagDiff(col1, col2), [], b.extra)
    else if ctor == ColorCtor then ColorInit(b)
    else
      var col :- FluxNameOf(Arg(b, "col"));
      if Arg(b, "calib") != Null then Err(NoAttribute("getFluxMag0"))
      else InitFunctor(MagKind(ctor, col), [], b.extra)
  }

  /** `Color.__init__` on its bound arguments. */
  function ColorInit(b: Bound): (r: Result<Functor>)
    requires b.extra.Valid()
    ensures r.Ok? ==> r.value.kind.Color? && WellFormed(r.value)
    ensures r.Ok? ==> "filt" !in b.extra.entries
    decreases true, 0
  {
    var col :- FluxNameOf(Arg(b, "col"));
    if Arg(b, "filt2") == Arg(b, "filt1") then Err(SameFilters(Arg(b, "col").s))
    else if "filt" in b.extra.entries then Err(BadArguments("got multiple values for keyword argument filt"))
    else
      var _ :- Construct(MagCtor, [Arg(b, "col")], PutPairs(Put(Empty(), "filt", Arg(b, "filt2")), Items(b.extra)));
      var _ :- Construct(MagCtor, [Arg(b, "col")], PutPairs(Put(Empty(), "filt", Arg(b, "filt1")), Items(b.extra)));
      var filt2 :- AsString(Arg(b, "filt2"));
      var filt1 :- AsString(Arg(b, "filt1"));
      InitFunctor(Color(col, filt2, filt1), [], b.extra)
  }

  /** The class a functor of kind `k` is an instance of. */
  function CtorOf(k: Kind): Ctor
  {
    match k
    case Base => FunctorCtor
    case ColumnOf(_) => ColumnCtor
    case Custom(_) => CustomCtor
    case Mag(_) => MagCtor
    case MagErr(_) => MagErrCtor
    case NanoMaggie(_) => NanoMaggieCtor
    case MagDiff(_, _) => MagDiffCtor
    case Color(_, _, _) => ColorCtor
    case StarGalaxyLabeller => StarGalaxyCtor
    case NumStarLabeller => NumStarCtor
  }

  /** A functor class called with the given arguments builds an instance of
      that class. */
  function Construct(ctor: Ctor, args: seq<YamlValue>, kwargs: Dict<YamlValue>): (r: Result<Functor>)
    requires kwargs.Valid()
    ensures r.Ok? ==> WellFormed(r.value)
    ensures r.Ok? ==> CtorOf(r.value.kind) == ctor
    decreases ctor == ColorCtor, 2
  {
    if ctor == FunctorCtor then InitFunctor(Base, args, kwargs)
    else if ctor == StarGalaxyCtor then InitFunctor(StarGalaxyLabeller, args, kwargs)
    else if ctor == NumStarCtor then InitFunctor(NumStarLabeller, args, kwargs)
    else
      var b :- Bind(SignatureOf(ctor), args, kwargs);
      FromBound(ctor, b)
  }

  /** What `Column` and `CustomFunctor` build from their bound arguments: the
      column or expression must be a string, and the options are the
      keywords left over. */
  lemma ColumnFromBound(ctor: Ctor, b: Bound)
    requires (ctor == ColumnCtor || ctor == CustomCtor) && b.extra.Valid() && FromBound(ctor, b).Ok?
    ensures ctor == ColumnCtor ==> Arg(b, "col").Str? && FromBound(ctor, b).value == FromKeywords(ColumnOf(Arg(b, "col").s), b.extra)
    ensures ctor == CustomCtor ==> Arg(b, "expr").Str? && FromBound(ctor, b).value == FromKeywords(Custom(Arg(b, "expr").s), b.extra)
  {
  }

  /** What `MagDiff` builds from its bound arguments. */
  lemma MagDiffFromBound(b: Bound)
    requires b.extra.Valid() && FromBound(MagDiffCtor, b).Ok?
    ensures Arg(b, "col1").Str? && Arg(b, "col2").Str?
    ensures FromBound(MagDiffCtor, b).value == FromKeywords(MagDiff(FluxName(Arg(b, "col1").s), FluxName(Arg(b, "col2").s)), b.extra)
  {
  }

  /** What `Color` builds from its bound arguments. */
  lemma ColorFromBound(b: Bound)
    requires b.extra.Valid() && FromBound(ColorCtor, b).Ok?
    ensures Arg(b, "col").Str? && Arg(b, "filt2").Str? && Arg(b, "filt1").Str?
    ensures FromBound(ColorCtor, b).value == FromKeywords(Color(FluxName(Arg(b, "col").s), Arg(b, "filt2").s, Arg(b, "filt1").s), b.extra)
  {
    FromBoundColor(b);
    assert FluxNameOf(Arg(b, "col")).Ok?;
    assert AsString(Arg(b, "filt2")).Ok? && AsString(Arg(b, "filt1")).Ok?;
  }

  /** What `Mag`, `MagErr` and `NanoMaggie` build from their bound arguments. */
  lemma MagFromBound(ctor: Ctor, b: Bound)
    requires IsMagCtor(ctor) && b.extra.Valid() && FromBound(ctor, b).Ok?
    ensures Arg(b, "col").Str? && Arg(b, "calib") == Null
    ensures FromBound(ctor, b).value == FromKeywords(MagKind(ctor, FluxName(Arg(b, "col").s)), b.extra)
  {
  }

  /** A subclass called with the given arguments is its `__init__` on the
      bound arguments, and the options it reads are the call's keywords. */
  lemma ConstructPassed(ctor: Ctor, args: seq<YamlValue>, kwargs: Dict<YamlValue>)
    requires IsSubclassCtor(ctor) && kwargs.Valid() && Construct(ctor, args, kwargs).Ok?
    ensures Bind(SignatureOf(ctor), args, kwargs).Ok?
    ensures var b := Bind(SignatureOf(ctor), args, kwargs).value;
            Construct(ctor, args, kwargs) == FromBound(ctor, b) &&
            (forall k :: FromKeywords(k, b.extra) == FromKeywords(k, kwargs))
  {
    var sig := SignatureOf(ctor);
    var b := Bind(sig, args, kwargs).value;
    BoundArgs(sig, args, kwargs);
    assert Keyword(b.extra, "filt") == Keyword(kwargs, "filt");
    assert Keyword(b.extra, "dataset") == Keyword(kwargs, "dataset");
    assert Keyword(b.extra, "noDup") == Keyword(kwargs, "noDup");
  }

  /** `Functor`, `StarGalaxyLabeller` and `NumStarLabeller` take the options
      by position or by keyword. */
  lemma ConstructOptions(ctor: Ctor, args: seq<YamlValue>, kwargs: Dict<YamlValue>)
    requires !IsSubclassCtor(ctor)
    requires kwargs.Valid() && Construct(ctor, args, kwargs).Ok?
    ensures var f := Construct(ctor, args, kwargs).value;
            f == NewFunctor(f.kind, StrOrNone(Passed(FunctorSignature.params, args, kwargs, "filt")),
                                    StrOrNone(Passed(FunctorSignature.params, args, kwargs, "dataset")),
                                    BoolOrNone(Passed(FunctorSignature.params, args, kwargs, "noDup")))
  {
  }

  /** `Column(col, **kwargs)` reads the column passed, which must be a string. */
  lemma ConstructColumn(args: seq<YamlValue>, kwargs: Dict<YamlValue>)
    requires kwargs.Valid() && Construct(ColumnCtor, args, kwargs).Ok?
    ensures Passed(["col"], args, kwargs, "col").Str?
    ensures Construct(ColumnCtor, args, kwargs).value == FromKeywords(ColumnOf(Passed(["col"], args, kwargs, "col").s), kwargs)
  {
    var sig := Signature(["col"], 1, true);
    assert SignatureOf(ColumnCtor) == sig;
    ConstructPassed(ColumnCtor, args, kwargs);
    ColumnFromBound(ColumnCtor, Bind(sig, args, kwargs).value);
    BoundArg(sig, args, kwargs, "col");
  }

  /** `CustomFunctor(expr, **kwargs)` keeps the expression passed, which must
      be a string. */
  lemma ConstructCustom(args: seq<YamlValue>, kwargs: Dict<YamlValue>)
    requires kwargs.Valid() && Construct(CustomCtor, args, kwargs).Ok?
    ensures Passed(["expr"], args, kwargs, "expr").Str?
    ensures Construct(CustomCtor, args, kwargs).value == FromKeywords(Custom(Passed(["expr"], args, kwargs, "expr").s), kwargs)
  {
    var sig := Signature(["expr"], 1, true);
    assert SignatureOf(CustomCtor) == sig;
    ConstructPassed(CustomCtor, args, kwargs);
    ColumnFromBound(CustomCtor, Bind(sig, args, kwargs).value);
    BoundArg(sig, args, kwargs, "expr");
  }

  /** `Mag`, `MagErr` and `NanoMaggie` keep the flux column of the column
      passed, and succeed only without a calibration. */
  lemma ConstructMag(ctor: Ctor, args: seq<YamlValue>, kwargs: Dict<YamlValue>)
    requires IsMagCtor(ctor)
    requires kwargs.Valid() && Construct(ctor, args, kwargs).Ok?
    ensures Passed(["col", "calib"], args, kwargs, "col").Str?
    ensures Passed(["col", "calib"], args, kwargs, "calib") == Null
    ensures Construct(ctor, args, kwargs).value ==
            FromKeywords(MagKind(ctor, FluxName(Passed(["col", "calib"], args, kwargs, "col").s)), kwargs)
  {
    var sig := Signature(["col", "calib"], 1, true);
    assert SignatureOf(ctor) == sig;
    ConstructPassed(ctor, args, kwargs);
    MagFromBound(ctor, Bind(sig, args, kwargs).value);
    BoundArg(sig, args, kwargs, "col");
    BoundArg(sig, args, kwargs, "calib");
  }

  /** `MagDiff(col1, col2, **kwargs)` keeps the flux columns of both columns
      passed. */
  lemma ConstructMagDiff(args: seq<YamlValue>, kwargs: Dict<YamlValue>)
    requires kwargs.Valid() && Construct(MagDiffCtor, args, kwargs).Ok?
    ensures Passed(["col1", "col2"], args, kwargs, "col1").Str? && Passed(["col1", "col2"], args, kwargs, "col2").Str?
    ensures Construct(MagDiffCtor, args, kwargs).value ==
            FromKeywords(MagDiff(FluxName(Passed(["col1", "col2"], args, kwargs, "col1").s),
                                 FluxName(Passed(["col1", "col2"], args, kwargs, "col2").s)), kwargs)
  {
    var sig := Signature(["col1", "col2"], 2, true);
    assert SignatureOf(MagDiffCtor) == sig;
    ConstructPassed(MagDiffCtor, args, kwargs);
    MagDiffFromBound(Bind(sig, args, kwargs).value);
    BoundArg(sig, args, kwargs, "col1");
    BoundArg(sig, args, kwargs, "col2");
  }

  /** `Color(col, filt2, filt1, **kwargs)` keeps the flux column and the two
      different filters passed, and takes no `filt` keyword. */
  lemma ConstructColor(args: seq<YamlValue>, kwargs: Dict<YamlValue>)
    requires kwargs.Valid() && Construct(ColorCtor, args, kwargs).Ok?
    ensures var params := ["col", "filt2", "filt1"];
            Passed(params, args, kwargs, "col").Str? && Passed(params, args, kwargs, "filt2").Str? &&
            Passed(params, args, kwargs, "filt1").Str? &&
            Passed(params, args, kwargs, "filt2") != Passed(params, args, kwargs, "filt1")
    ensures "filt" !in kwargs.entries
    ensures var params := ["col", "filt2", "filt1"];
            Construct(ColorCtor, args, kwargs).value ==
            FromKeywords(Color(FluxName(Passed(params, args, kwargs, "col").s), Passed(params, args, kwargs, "filt2").s,
                               Passed(params, args, kwargs, "filt1").s), kwargs)
  {
    var sig := Signature(["col", "filt2", "filt1"], 3, true);
    assert SignatureOf(ColorCtor) == sig;
    ConstructPassed(ColorCtor, args, kwargs);
    ColorFromBound(Bind(sig, args, kwargs).value);
    BoundArg(sig, args, kwargs, "col");
    BoundArg(sig, args, kwargs, "filt2");
    BoundArg(sig, args, kwargs, "filt1");
  }

  /** Keywords `Functor.__init__` accepts: only its options, each `None` or
      of its type. */
  predicate OptionKeywords(kwargs: Dict<YamlValue>)
  {
    (forall k :: k in kwargs.entries ==> k in FunctorSignature.params) && OptionsTyped([], kwargs)
  }

  /** `Functor.__init__` called with such keywords alone succeeds and keeps
      them. */
  lemma InitFunctorFromKeywords(k: Kind, kwargs: Dict<YamlValue>)
    requires kwargs.Valid() && OptionKeywords(kwargs)
    ensures InitFunctor(k, [], kwargs) == Ok(FromKeywords(k, kwargs))
  {
    forall i | 0 <= i < |kwargs.keys| ensures KeywordFits(FunctorSignature, 0, kwargs.keys[i]) {
      assert kwargs.keys[i] in kwargs.entries;
    }
    InitFunctorSucceeds(k, [], kwargs);
  }

  /** A subclass's parameters bind whenever the call passes at least the
      required ones by position and only options by keyword: each parameter
      holds its positional argument or `None`, and the options pass on
      unchanged. */
  lemma BindOptions(sig: Signature, args: seq<YamlValue>, kwargs: Dict<YamlValue>)
    requires NoDuplicates(sig.params) && sig.required <= |args| <= |sig.params| && sig.varKw
    requires "filt" !in sig.params && "dataset" !in sig.params && "noDup" !in sig.params
    requires kwargs.Valid() && OptionKeywords(kwargs)
    ensures Bind(sig, args, kwargs).Ok?
    ensures forall i :: 0 <= i < |sig.params| ==>
              Arg(Bind(sig, args, kwargs).value, sig.params[i]) == if i < |args| then args[i] else Null
    ensures OptionKeywords(Bind(sig, args, kwargs).value.extra)
    ensures forall k :: FromKeywords(k, Bind(sig, args, kwargs).value.extra) == FromKeywords(k, kwargs)
  {
    forall i | 0 <= i < |kwargs.keys| ensures KeywordFits(sig, |args|, kwargs.keys[i]) {
      assert kwargs.keys[i] in kwargs.entries;
    }
    assert Bind(sig, args, kwargs).Ok?;
    forall i | 0 <= i < |sig.params|
      ensures Arg(Bind(sig, args, kwargs).value, sig.params[i]) == if i < |args| then args[i] else Null
    {
      BoundArg(sig, args, kwargs, sig.params[i]);
      IndexOfUnique(sig.params, i);
    }
    OptionsPassOn(sig, args, kwargs);
  }

  /** The options of a call that binds reach `Functor.__init__` unchanged. */
  lemma OptionsPassOn(sig: Signature, args: seq<YamlValue>, kwargs: Dict<YamlValue>)
    requires NoDuplicates(sig.params) && sig.required <= |sig.params|
    requires "filt" !in sig.params && "dataset" !in sig.params && "noDup" !in sig.params
    requires kwargs.Valid() && OptionKeywords(kwargs) && Bind(sig, args, kwargs).Ok?
    ensures OptionKeywords(Bind(sig, args, kwargs).value.extra)
    ensures forall k :: FromKeywords(k, Bind(sig, args, kwargs).value.extra) == FromKeywords(k, kwargs)
  {
    BoundArgs(sig, args, kwargs);
    var extra := Bind(sig, args, kwargs).value.extra;
    assert Keyword(extra, "filt") == Keyword(kwargs, "filt");
    assert Keyword(extra, "dataset") == Keyword(kwargs, "dataset");
    assert Keyword(extra, "noDup") == Keyword(kwargs, "noDup");
  }

  /** `Column(col, **kwargs)` succeeds on a string and keywords that are
      typed options. */
  lemma ConstructColumnSucceeds(c: string, kwargs: Dict<YamlValue>)
    requires kwargs.Valid() && OptionKeywords(kwargs)
    ensures Construct(ColumnCtor, [Str(c)], kwargs) == Ok(FromKeywords(ColumnOf(c), kwargs))
  {
    var sig := Signature(["col"], 1, true);
    assert SignatureOf(ColumnCtor) == sig;
    BindOptions(sig, [Str(c)], kwargs);
    var b := Bind(sig, [Str(c)], kwargs).value;
    assert Arg(b, sig.params[0]) == Str(c);
    InitFunctorFromKeywords(ColumnOf(c), b.extra);
  }

  /** `CustomFunctor(expr, **kwargs)` succeeds on a string and keywords that
      are typed options. */
  lemma ConstructCustomSucceeds(c: string, kwargs: Dict<YamlValue>)
    requires kwargs.Valid() && OptionKeywords(kwargs)
    ensures Construct(CustomCtor, [Str(c)], kwargs) == Ok(FromKeywords(Custom(c), kwargs))
  {
    var sig := Signature(["expr"], 1, true);
    assert SignatureOf(CustomCtor) == sig;
    BindOptions(sig, [Str(c)], kwargs);
    var b := Bind(sig, [Str(c)], kwargs).value;
    assert Arg(b, sig.params[0]) == Str(c);
    InitFunctorFromKeywords(Custom(c), b.extra);
  }

  /** `Mag(col, **kwargs)`, `MagErr` and `NanoMaggie` succeed on a string
      column, no calibration and keywords that are typed options. */
  lemma ConstructMagSucceeds(ctor: Ctor, c: string, kwargs: Dict<YamlValue>)
    requires IsMagCtor(ctor)
    requires kwargs.Valid() && OptionKeywords(kwargs)
    ensures Construct(ctor, [Str(c)], kwargs) == Ok(FromKeywords(MagKind(ctor, FluxName(c)), kwargs))
  {
    var sig := Signature(["col", "calib"], 1, true);
    assert SignatureOf(ctor) == sig;
    BindOptions(sig, [Str(c)], kwargs);
    var b := Bind(sig, [Str(c)], kwargs).value;
    assert Arg(b, sig.params[0]) == Str(c) && Arg(b, sig.params[1]) == Null;
    InitFunctorFromKeywords(MagKind(ctor, FluxName(c)), b.extra);
  }

  /** `MagDiff(col1, col2, **kwargs)` succeeds on two string columns and
      keywords that are typed options. */
  lemma ConstructMagDiffSucceeds(c1: string, c2: string, kwargs: Dict<YamlValue>)
    requires kwargs.Valid() && OptionKeywords(kwargs)
    ensures Construct(MagDiffCtor, [Str(c1), Str(c2)], kwargs) == Ok(FromKeywords(MagDiff(FluxName(c1), FluxName(c2)), kwargs))
  {
    var sig := Signature(["col1", "col2"], 2, true);
    assert SignatureOf(MagDiffCtor) == sig;
    BindOptions(sig, [Str(c1), Str(c2)], kwargs);
    var b := Bind(sig, [Str(c1), Str(c2)], kwargs).value;
    assert Arg(b, sig.params[0]) == Str(c1) && Arg(b, sig.params[1]) == Str(c2);
    InitFunctorFromKeywords(MagDiff(FluxName(c1), FluxName(c2)), b.extra);
  }

  /** `Color(col, filt2, filt1, **kwargs)` succeeds on a string column, two
      different string filters and keywords that are typed options other
      than `filt`. */
  lemma ConstructColorSucceeds(c: string, f2: string, f1: string, kwargs: Dict<YamlValue>)
    requires f2 != f1 && kwargs.Valid() && OptionKeywords(kwargs) && "filt" !in kwargs.entries
    ensures Construct(ColorCtor, [Str(c), Str(f2), Str(f1)], kwargs) == Ok(FromKeywords(Color(FluxName(c), f2, f1), kwargs))
  {
    var sig := Signature(["col", "filt2", "filt1"], 3, true);
    assert SignatureOf(ColorCtor) == sig;
    BindOptions(sig, [Str(c), Str(f2), Str(f1)], kwargs);
    var b := Bind(sig, [Str(c), Str(f2), Str(f1)], kwargs).value;
    assert Arg(b, sig.params[0]) == Str(c) && Arg(b, sig.params[1]) == Str(f2) && Arg(b, sig.params[2]) == Str(f1);
    assert "filt" !in b.extra.entries;
    ConstructBound(ColorCtor, [Str(c), Str(f2), Str(f1)], kwargs);
    FromBoundColor(b);
    ColorFromOptions(c, f2, f1, b);
    assert FromKeywords(Color(FluxName(c), f2, f1), b.extra) == FromKeywords(Color(FluxName(c), f2, f1), kwargs);
  }

  /** `Color`'s branch of the subclass bodies. */
  lemma FromBoundColor(b: Bound)
    requires b.extra.Valid()
    ensures FromBound(ColorCtor, b) == ColorInit(b)
  {
  }

  /** A subclass whose arguments bind runs its `__init__` on them. */
  lemma ConstructBound(ctor: Ctor, args: seq<YamlValue>, kwargs: Dict<YamlValue>)
    requires IsSubclassCtor(ctor) && kwargs.Valid() && Bind(SignatureOf(ctor), args, kwargs).Ok?
    ensures Construct(ctor, args, kwargs) == FromBound(ctor, Bind(SignatureOf(ctor), args, kwargs).value)
  {
  }

  /** `Color`'s `__init__` on its bound arguments, when they are typed. */
  lemma ColorFromOptions(c: string, f2: string, f1: string, b: Bound)
    requires f2 != f1 && b.extra.Valid() && OptionKeywords(b.extra) && "filt" !in b.extra.entries
    requires Arg(b, "col") == Str(c) && Arg(b, "filt2") == Str(f2) && Arg(b, "filt1") == Str(f1)
    ensures ColorInit(b) == Ok(FromKeywords(Color(FluxName(c), f2, f1), b.extra))
  {
    MagWithFilter(c, f2, b.extra);
    MagWithFilter(c, f1, b.extra);
    InitFunctorFromKeywords(Color(FluxName(c), f2, f1), b.extra);
  }

  /** The `Mag(col, filt=f, **kwargs)` that `Color` builds succeeds when the
      keywords are typed options other than `filt`. */
  lemma MagWithFilter(c: string, f: string, extra: Dict<YamlValue>)
    requires extra.Valid() && OptionKeywords(extra) && "filt" !in extra.entries
    ensures Construct(MagCtor, [Str(c)], PutPairs(Put(Empty(), "filt", Str(f)), Items(extra))).Ok?
  {
    var d := Put(Empty(), "filt", Str(f));
    var kw := PutPairs(d, Items(extra));
    UpdateEntries(d, extra);
    UpdateEntry(d, extra, "filt");
    UpdateEntry(d, extra, "dataset");
    UpdateEntry(d, extra, "noDup");
    assert Keyword(kw, "filt") == Str(f);
    assert OptionKeywords(kw);
    ConstructMagSucceeds(MagCtor, c, kw);
  }

  /** What every constructor guarantees of the functor it builds: flux
      columns carry the flux suffix, and a colour uses two different filters. */
  predicate WellFormed(f: Functor)
  {
    match f.kind
    case Mag(c) => EndsWith(c, InstFlux)
    case MagErr(c) => EndsWith(c, InstFlux)
    case NanoMaggie(c) => EndsWith(c, InstFlux)
    case MagDiff(c1, c2) => EndsWith(c1, InstFlux) && EndsWith(c2, InstFlux)
    case Color(c, f2, f1) => EndsWith(c, InstFlux) && f2 != f1
    case _ => true
  }

  const TypeKey := "functor"

  /** `init_fromDict`: pop the type name and look it up (a missing entry is a
      `KeyError`, an unknown name an `ImportError`), pop `args` (a lone
      string is one argument), and call the class with the rest as keywords.
      A failing construction is re-raised with the same exception class. */
  function InitFromDict(initDict: Dict<YamlValue>, registry: map<string, Ctor>, name: string): (r: Result<Functor>)
    requires initDict.Valid()
    ensures TypeKey !in initDict.entries ==> r == Err(MissingEntry(TypeKey))
    ensures TypeKey in initDict.entries && initDict.entries[TypeKey].Str? && initDict.entries[TypeKey].s !in registry ==>
              r == Err(UnknownType(initDict.entries[TypeKey].s))
    ensures TypeKey in initDict.entries && initDict.entries[TypeKey].Str? && initDict.entries[TypeKey].s in registry && r.Err? ==>
              r.error.Construction? && r.error.typeName == initDict.entries[TypeKey].s && r.error.name == name
    ensures TypeKey in initDict.entries && initDict.entries[TypeKey].Str? && initDict.entries[TypeKey].s in registry ==>
              var c := if StarArgs(initDict).None? then Err(BadArguments("argument after * must be an iterable"))
                       else Construct(registry[initDict.entries[TypeKey].s], StarArgs(initDict).value, Remove(Remove(initDict, TypeKey), "args"));
              r == if c.Ok? then c else Err(Construction(name, initDict.entries[TypeKey].s, c.error))
    ensures r.Ok? ==> WellFormed(r.value)
  {
    if TypeKey !in initDict.entries then Err(MissingEntry(TypeKey))
    else
      var typeValue := initDict.entries[TypeKey];
      var rest := Remove(initDict, TypeKey);
      if !typeValue.Str? || typeValue.s !in registry then
        Err(UnknownType(if typeValue.Str? then typeValue.s else ""))
      else
        var typeName := typeValue.s;
        var args := if "args" in rest.entries then rest.entries["args"] else Seq([]);
        var kwargs := Remove(rest, "args");
        var r := match args
          case Str(_) => Construct(registry[typeName], [args], kwargs)
          case Seq(items) => Construct(registry[typeName], items, kwargs)
          case Mapping(keys) => Construct(registry[typeName], KeyArgs(keys), kwargs)
          case _ => Err(BadArguments("argument after * must be an iterable"));
        if r.Err? then Err(Construction(name, typeName, r.error)) else r
  }

  /** The positional arguments `*args` spreads: none when `args` is absent,
      a lone string as one argument, a list as its items, a mapping as its
      keys; anything else is not iterable. */
  function StarArgs(initDict: Dict<YamlValue>): (r: Option<seq<YamlValue>>)
    ensures "args" !in initDict.entries ==> r == Some([])
    ensures "args" in initDict.entries && initDict.entries["args"].Str? ==> r == Some([initDict.entries["args"]])
    ensures "args" in initDict.entries && initDict.entries["args"].Seq? ==> r == Some(initDict.entries["args"].items)
    ensures "args" in initDict.entries && initDict.entries["args"].Mapping? ==>
              r.Some? && |r.value| == |initDict.entries["args"].keys| &&
              forall i :: 0 <= i < |r.value| ==> r.value[i] == Str(initDict.entries["args"].keys[i])
    ensures r.None? <==> "args" in initDict.entries && (initDict.entries["args"].Bool? || initDict.entries["args"].Null? || initDict.entries["args"].Other?)
  {
    if "args" !in initDict.entries then Some([])
    else
      var v := initDict.entries["args"];
      if v.Str? then Some([v]) else if v.Seq? then Some(v.items) else if v.Mapping? then Some(KeyArgs(v.keys)) else None
  }

  /** A mapping's keys as positional arguments. */
  function KeyArgs(keys: seq<string>): (r: seq<YamlValue>)
    ensures |r| == |keys| && forall i :: 0 <= i < |keys| ==> r[i] == Str(keys[i])
  {
    seq(|keys|, i requires 0 <= i < |keys| => Str(keys[i]))
  }

  /** A lone string under `args` is the same as a list holding it. */
  lemma StringArgsAreOneArgument(initDict: Dict<YamlValue>, registry: map<string, Ctor>, name: string, s: string)
    requires initDict.Valid() && "args" in initDict.entries && initDict.entries["args"] == Str(s)
    ensures InitFromDict(initDict, registry, name) ==
            InitFromDict(Put(initDict, "args", Seq([Str(s)])), registry, name)
  {
    var other := Put(initDict, "args", Seq([Str(s)]));
    if TypeKey in initDict.entries {
      var rest := Remove(initDict, TypeKey);
      var rest' := Remove(other, TypeKey);
      assert Remove(rest, "args") == Remove(rest', "args") by {
        assert rest.keys == rest'.keys;
      }
    }
  }
}
