# Functors and bright-star stamps, modelled in Dafny

This project models two parts of the LSST `pipe_tasks` package.

**Functors** (`python/lsst/pipe/tasks/functors.py`). A functor names the
catalogue columns it needs and computes one result column from them. The
project models:

- the `Functor` base class:
  - its `noDup` default;
  - its `columns` and `multilevelColumns`, including the choice of filter and
    the errors;
  - `_get_cols` and `_setLevels`;
  - `__call__`, including `fail` and `dropna`;
  - `difference`.
- `Column`, `CustomFunctor`, `Color`, the labellers, and the other functor
  classes as far as construction and column names go;
- `fluxName` and `fluxErrName`;
- the column scan of `CustomFunctor` and the `mag(...)` rewrite of
  `mag_aware_eval`;
- `init_fromDict`, with the type lookup as an explicit registry and Python's
  binding of positional and keyword arguments;
- the class `CompositeFunctor`:
  - its constructor, the `filt` setter, `update`, `columns`,
    `multilevelColumns` and `__call__`;
  - `renameCol` and `from_yaml`.

**Bright-star stamps** (`python/lsst/pipe/tasks/processBrightStars.py`). The
model covers the integer geometry of `ProcessBrightStarsTask`:

- the model stamp size and its central pixel;
- in `extractStamps`:
  - the brightness cut;
  - the test that skips a star whose stamp would miss the exposure;
  - the clipping of a stamp box to the exposure, axis by axis;
  - the four parallel result lists.

Modules, one per file:

- `Common`: the option and result types, the Python exception classes and
  the error each failure path raises, and small sequence helpers.
- `OrderedDicts`: Python dictionaries with insertion order. Re-assigning a
  key keeps its position.
- `Frames`: multilevel and plain tables, loaded frames, and result series.
  NaN is the `Missing` value.
- `Names`: `fluxName`, `str.replace`, and `renameCol`'s rule list.
- `Expressions`: the regular-expression scans of `CustomFunctor.columns` and
  `mag_aware_eval`.
- `Functors`: the functor value, its columns, `_get_cols`, `_func`,
  `__call__` and `difference`.
- `Loader`: `init_fromDict` and the constructors' argument checks.
- `Composite`: the class `CompositeFunctor` and the functions that specify
  its methods.
- `BrightStars`: the class `ProcessBrightStarsTask` and the stamp geometry.

Functors are values inside a composite's `funcDict`. The composite is a class
whose methods update `funcDict` and `filt` in place. The loops of `__call__`,
`renameCol`, `from_yaml` and `extractStamps` are methods. Each is proved
equal to a function, and the lemmas state the source's promises about that
function.

## Model

| member | source | states |
|---|---|---|
| Common.Dedup | python/lsst/pipe/tasks/functors.py:308 | `list(set(...))` keeps each element once and loses none |
| OrderedDicts.Put | python/lsst/pipe/tasks/functors.py:364 | assigning a key sets its value; a new key goes last, an existing key keeps its place |
| OrderedDicts.Remove | python/lsst/pipe/tasks/functors.py:38 | popping a key removes exactly that key and keeps the other values |
| OrderedDicts.Items | python/lsst/pipe/tasks/functors.py:290 | the items are the keys in insertion order with their values |
| OrderedDicts.PutPairsHas | python/lsst/pipe/tasks/functors.py:362-377 | after a run of assignments a key is present iff it was present before or was assigned |
| OrderedDicts.PutPairsLastWins | python/lsst/pipe/tasks/functors.py:362-377 | the last assignment to a key decides its value |
| OrderedDicts.PutPairsUntouched | python/lsst/pipe/tasks/functors.py:362-377 | a key that no assignment names keeps its value |
| OrderedDicts.PutPairsKeepsOrder | python/lsst/pipe/tasks/functors.py:362-377 | assignments never reorder the keys that were already there; the new keys follow them once each, in the order of their first assignment |
| OrderedDicts.Update | python/lsst/pipe/tasks/functors.py:296-298 | `dict.update`: the keys of both, with the new values winning and the other old values kept; the old keys keep their order and the new ones follow in the other dictionary's order |
| Frames.LoadMultilevel | python/lsst/pipe/tasks/functors.py:189 | the load succeeds iff every requested key is in the table; it gives exactly those columns, in order, over the table's index |
| Frames.LoadPlain | python/lsst/pipe/tasks/functors.py:197 | the same for a single-level table addressed by column name |
| Frames.Lookup | python/lsst/pipe/tasks/functors.py:324 | a column is found iff some column of the frame has that key, and then its values are returned |
| Frames.Select | python/lsst/pipe/tasks/functors.py:324 | `df[keys]` succeeds iff every key is in the frame; it keeps the index and gives the columns in the order asked |
| Frames.DropLevels | python/lsst/pipe/tasks/functors.py:201-204 | dropping levels keeps the index and every column's values, and only projects its key |
| Frames.AllMissing | python/lsst/pipe/tasks/functors.py:226 | `np.full(n, nan)`: n values, all missing |
| Frames.Unzip | python/lsst/pipe/tasks/functors.py:207 | rebuilding a series from its rows gives back exactly those rows |
| Frames.DropMissing | python/lsst/pipe/tasks/functors.py:206-207 | `dropna` keeps exactly the rows whose value is not missing, in order |
| Names.FluxName | python/lsst/pipe/tasks/functors.py:529-532 | the result always ends in `_instFlux` and starts with the column; the suffix is added iff it is absent |
| Names.FluxErrName | python/lsst/pipe/tasks/functors.py:535-538 | the same with `_instFluxErr` |
| Names.FluxNameIdempotent | python/lsst/pipe/tasks/functors.py:529-538 | applying either function twice is the same as once |
| Names.Interleave | python/lsst/pipe/tasks/functors.py:350 | `replace('', new)` puts `new` before every character and at the end: one copy per gap, so the result starts and ends with it |
| Names.ReplaceAll | python/lsst/pipe/tasks/functors.py:350 | `str.replace` rewrites every occurrence: a string that starts with the pattern starts with the replacement, and a replacement of the same length keeps the length |
| Names.ApplyRule | python/lsst/pipe/tasks/functors.py:349-350 | a name without the old prefix is returned unchanged; a name with it starts with the new prefix |
| Names.ApplyRules | python/lsst/pipe/tasks/functors.py:348-350 | a name that starts with none of the old prefixes is returned unchanged; rules that keep lengths keep the name's length |
| Names.Renamed | python/lsst/pipe/tasks/functors.py:345-351 | no rules, or an empty list, leave the name alone; otherwise the rules apply in order |
| Names.InterleaveNothing | python/lsst/pipe/tasks/functors.py:350 | replacing the empty string by the empty string changes nothing |
| Names.ReplaceBySelf | python/lsst/pipe/tasks/functors.py:350 | replacing a pattern by itself changes nothing |
| Names.ReplaceAbsent | python/lsst/pipe/tasks/functors.py:350 | replacing a pattern that does not occur changes nothing |
| Names.ApplyRulesInOrder | python/lsst/pipe/tasks/functors.py:348-350 | the rules apply in order: two lists of rules applied together act as one after the other |
| Names.ApplyRuleRewritesEveryOccurrence | python/lsst/pipe/tasks/functors.py:349-350 | for any prefix, a name that starts with it becomes the new prefix followed by the rest with every further occurrence replaced too: `replace` does not stop at the prefix |
| Expressions.Identifiers | python/lsst/pipe/tasks/functors.py:429 | `re.findall('[a-zA-Z_]+')` gives non-empty words of letters and underscores |
| Expressions.NameRun | python/lsst/pipe/tasks/functors.py:429 | `[a-zA-Z_]+` at a position takes the longest run of letters and underscores |
| Expressions.WordRun | python/lsst/pipe/tasks/functors.py:427 | `\w+` at a position takes the longest run of word characters |
| Expressions.SpaceRun | python/lsst/pipe/tasks/functors.py:427 | `\s*` at a position takes the longest run of whitespace, as `str.isspace` defines it |
| Expressions.IdentifiersComplete | python/lsst/pipe/tasks/functors.py:429 | every maximal run of letters and underscores in the expression is found |
| Expressions.IdentifiersSound | python/lsst/pipe/tasks/functors.py:429 | every word found is a maximal run of letters and underscores of the expression |
| Expressions.MatchMag | python/lsst/pipe/tasks/functors.py:427 | a match of `mag\(\s*(\w+)\s*\)` starts with `mag(`, ends at a `)`, captures a non-empty word, and holds only spaces and word characters between the parentheses |
| Expressions.CallDetermined | python/lsst/pipe/tasks/functors.py:427 | a call `mag( w )` at the start of a text is determined by the text: its word and its end are unique |
| Expressions.MatchMagComplete | python/lsst/pipe/tasks/functors.py:427 | a text that starts with a call `mag( w )` is matched, capturing `w` and ending after the `)` |
| Expressions.MatchMagFinds | python/lsst/pipe/tasks/functors.py:427 | `mag(`, spaces, a word, spaces and `)` are matched whatever follows, capturing the word |
| Expressions.MatchMagSound | python/lsst/pipe/tasks/functors.py:427 | every match is a call `mag( w )` at the start of the text; it captures `w` and ends after the `)` |
| Expressions.MatchesDoNotOverlap | python/lsst/pipe/tasks/functors.py:427 | no match starts inside another, so the scan resumes after a match's end |
| Expressions.MagArguments | python/lsst/pipe/tasks/functors.py:427 | every captured argument is a non-empty word |
| Expressions.MagArgumentsComplete | python/lsst/pipe/tasks/functors.py:427 | the argument of a match at any position of the expression is listed |
| Expressions.MagArgumentsSound | python/lsst/pipe/tasks/functors.py:427 | every argument listed is captured by a match at some position of the expression |
| Expressions.RewriteMag | python/lsst/pipe/tasks/functors.py:396-399 | an expression without `mag(` is left as it is |
| Expressions.RewriteMagCall | python/lsst/pipe/tasks/functors.py:396-399 | `mag(w)` becomes `-2.5*log(w` plus the suffix `)/log(10)`, and the rest of the expression is rewritten the same way |
| Expressions.MagAwareEval | python/lsst/pipe/tasks/functors.py:382-401 | the expression is evaluated with `mag(x)` rewritten to use `x`; only if that raises is it rewritten to use `x_instFlux` |
| Expressions.FluxNames | python/lsst/pipe/tasks/functors.py:431-436 | every argument of `mag` is mapped to its flux column |
| Expressions.ExprColumns | python/lsst/pipe/tasks/functors.py:425-438 | no duplicates; a name is a column iff it is a word that is not ignored, or the flux column of a `mag` argument, and it is not a bare `mag` argument |
| Expressions.MagArgumentsNeedFluxColumns | python/lsst/pipe/tasks/functors.py:431-438 | every `mag` argument needs its flux column, and a bare argument is not itself a column |
| Expressions.IgnoredWordsAreNotColumns | python/lsst/pipe/tasks/functors.py:415-429 | `mag`, `sin`, `cos`, `exp`, `log` and `sqrt` are never columns |
| Expressions.FluxNamesSnoc | python/lsst/pipe/tasks/functors.py:431-436 | the flux names of a list grow by one name per argument |
| Expressions.CollectFluxColumns | python/lsst/pipe/tasks/functors.py:430-436 | the loop appends each argument's flux column, and records the bare arguments as not columns |
| Expressions.CustomColumns | python/lsst/pipe/tasks/functors.py:425-438 | the property computes exactly `ExprColumns` |
| Functors.NewFunctor | python/lsst/pipe/tasks/functors.py:115-118 | the dataset defaults to the class's `_defaultDataset`; a colour ignores the filter |
| Functors.NoDup | python/lsst/pipe/tasks/functors.py:120-125 | the explicit argument wins; otherwise only `Color` defaults to true |
| Functors.Name | python/lsst/pipe/tasks/functors.py:229-232 | the `name` of each class: a `Column` its column (line 453-454), a custom functor its expression (422-423), `Mag` and `NanoMaggie` `mag_<col>` (589-590), `MagErr` that plus `_err` (627-628), `MagDiff` `(mag_<col1> - mag_<col2>)` (660-661), `Color` `<filt2> - <filt1> (<col>)` (731-732), a labeller `label` (744) |
| Functors.Shortname | python/lsst/pipe/tasks/functors.py:235-238 | the name, except for `MagDiff`, `magDiff_<col1>_<col2>` (line 664-665), and `Color`, its column, `_`, the second filter without dashes, `m` and the first filter without dashes (735-736) |
| Functors.WithFilt | python/lsst/pipe/tasks/functors.py:709-715 | setting `filt` on a functor sets it; on a colour it changes nothing |
| Functors.Columns | python/lsst/pipe/tasks/functors.py:128-133 | the base class raises `NotImplementedError`; a `Column` needs its column, a custom functor its expression's columns, a colour its flux column twice |
| Functors.DashesRemoved | python/lsst/pipe/tasks/functors.py:736 | `replace('-', '')` keeps exactly the characters that are not dashes, in order |
| Functors.ColorShortname | python/lsst/pipe/tasks/functors.py:735-736 | a colour's short name starts with its column and `_`, and no dash follows them |
| Functors.ChooseFilter | python/lsst/pipe/tasks/functors.py:142-153 | a set filter is used; unset, the `ref` dataset takes the table's first filter, and any other dataset raises |
| Functors.MultilevelColumns | python/lsst/pipe/tasks/functors.py:135-155 | level sets that differ raise `ValueError`; otherwise each column is keyed by the chosen filter and the dataset; a colour asks for its two filters |
| Functors.SetLevels | python/lsst/pipe/tasks/functors.py:201-204 | the levels outside the class's `_dfLevels` are dropped: all but `column`, or, for a colour, all but `filter` and `column` |
| Functors.GetCols | python/lsst/pipe/tasks/functors.py:182-199 | a multilevel table loads the functor's keys and drops levels; a plain table loads its columns by name; every error is passed on; the frame keeps the table's index |
| Functors.ClassifyExtendedness | python/lsst/pipe/tasks/functors.py:757-765 | a missing value is labelled `null`, below 0.5 `star`, otherwise `galaxy` |
| Functors.Func | python/lsst/pipe/tasks/functors.py:179-180 | `_func`: the base class raises; `Column` returns its column; a custom functor is `mag_aware_eval`; the star/galaxy labeller labels every row, and raises when the column is missing or already holds labels |
| Functors.RowValues | python/lsst/pipe/tasks/functors.py:210-214 | a transform's output is used iff it computed one value per row |
| Functors.Fail | python/lsst/pipe/tasks/functors.py:225-226 | `fail` gives a missing value for every row of the frame's index |
| Functors.Evaluate | python/lsst/pipe/tasks/functors.py:209-218 | a failed load reaches `fail(df)` with `df` unbound and raises `UnboundLocalError`; otherwise the result is the transform's values on the loaded index, or `fail(df)` when the transform raises, with the missing rows dropped iff `dropna` |
| Functors.Call | python/lsst/pipe/tasks/functors.py:747-748 | a labeller is always called with `dropna` false; any other functor passes its `dropna` on |
| Functors.CallContainsTransformFailure | python/lsst/pipe/tasks/functors.py:210-214 | a transform that raises after a good load gives an all-missing series over the table's index |
| Functors.CallDoesNotContainLoadFailure | python/lsst/pipe/tasks/functors.py:210-214 | a load that raises is not contained: the call raises `UnboundLocalError` |
| Functors.CallRows | python/lsst/pipe/tasks/functors.py:209-218 | the call keeps the table's index, and `dropna` keeps exactly the rows that are not missing |
| Functors.LabellerKeepsRows | python/lsst/pipe/tasks/functors.py:747-748 | for a labeller `dropna` makes no difference, and every row of the table is kept |
| Functors.StarGalaxyLabels | python/lsst/pipe/tasks/functors.py:755-768 | on a table holding the extendedness column, every row gets its star, galaxy or null label |
| Functors.Minus | python/lsst/pipe/tasks/functors.py:223 | subtracting two series fails, with a `TypeError`, iff one holds a label; on a shared index it subtracts row by row |
| Functors.At | python/lsst/pipe/tasks/functors.py:223 | a row absent from a series is missing when the series are aligned; a present row gives its value |
| Functors.SubValue | python/lsst/pipe/tasks/functors.py:223 | numbers subtract, a missing operand gives a missing value, and a label raises |
| Functors.Difference | python/lsst/pipe/tasks/functors.py:220-223 | the first call's error comes first, then the second call's; otherwise the two results are subtracted |
| Functors.DifferenceWithItself | python/lsst/pipe/tasks/functors.py:220-223 | a functor's difference between a table and itself is zero on every computed row and missing elsewhere |
| Loader.IndexOf | python/lsst/pipe/tasks/functors.py:45 | the position of a parameter name: its first occurrence |
| Loader.BindKeywords | python/lsst/pipe/tasks/functors.py:45 | binding fails with `TypeError` iff some keyword is unknown or repeats a positional argument; named keywords bind their values and the rest go to `**kwargs` |
| Loader.Bind | python/lsst/pipe/tasks/functors.py:45 | too many positional arguments or a bad keyword raise `TypeError`; positionals bind in order; keywords bind by name; every required parameter gets a value; and the call binds whenever every keyword fits, the positionals fit and each required parameter past them is named by a keyword |
| Loader.BindValues | python/lsst/pipe/tasks/functors.py:45 | once the keywords bind and the positionals fit, binding fails only on a required parameter that nothing fills |
| Loader.RequiredFilled | python/lsst/pipe/tasks/functors.py:45 | a required parameter past the positional arguments is filled when a keyword names it |
| Loader.Positional | python/lsst/pipe/tasks/functors.py:45 | the i-th positional argument binds the i-th parameter, and nothing else is bound |
| Loader.KeywordsAfterPositionals | python/lsst/pipe/tasks/functors.py:45 | after a good binding no keyword names a parameter that was filled positionally |
| Loader.IndexOfUnique | python/lsst/pipe/tasks/functors.py:45 | in a list without duplicates each name is found at its own position |
| Loader.ExtraKeys | python/lsst/pipe/tasks/functors.py:45 | `**kwargs` holds exactly the keywords that name no parameter |
| Loader.BoundArgs | python/lsst/pipe/tasks/functors.py:45 | after a good binding each parameter holds what the call passed to it: the positional argument in its place, else the keyword of its name, else `None`; `**kwargs` holds the other keywords |
| Loader.BuiltinsByName | python/lsst/pipe/tasks/functors.py:38 | `doImport` of a class name finds the class of that name, and every class can be named |
| Loader.OptString | python/lsst/pipe/tasks/functors.py:115-117 | `filt` and `dataset` are a string or unset |
| Loader.OptBool | python/lsst/pipe/tasks/functors.py:115-118 | `noDup` is a boolean or unset |
| Loader.AsString | python/lsst/pipe/tasks/functors.py:448-449 | the value passed as a column name or expression is kept when it is a string, and anything else is rejected |
| Loader.FluxNameOf | python/lsst/pipe/tasks/functors.py:529-532 | `fluxName` of a string; anything else has no `endswith` and raises `AttributeError` |
| Loader.InitFunctor | python/lsst/pipe/tasks/functors.py:115-118 | `Functor.__init__` builds a functor of the requested kind with the `filt`, `dataset` and `noDup` passed to it, by position or keyword |
| Loader.InitFunctorSucceeds | python/lsst/pipe/tasks/functors.py:115-118 | `Functor.__init__` succeeds iff the call binds and each option passed is `None` or of its type |
| Loader.OptionsFromKeywords | python/lsst/pipe/tasks/functors.py:448-450 | a subclass hands the keywords it does not take to `Functor.__init__`, so the functor's options are the call's keywords |
| Loader.FromBound | python/lsst/pipe/tasks/functors.py:697-708 | each subclass body builds a well-formed instance of its own class; a colour takes no `filt` keyword, which would clash with its inner `Mag` calls |
| Loader.Construct | python/lsst/pipe/tasks/functors.py:45 | a constructor that succeeds yields a well-formed functor of the class that was called |
| Loader.ConstructOptions | python/lsst/pipe/tasks/functors.py:115-118 | `Functor` and the labellers take `filt`, `dataset` and `noDup` by position or keyword |
| Loader.ConstructColumn | python/lsst/pipe/tasks/functors.py:448-450 | `Column` keeps the column passed, which must be a string, with the call's keywords as options |
| Loader.ConstructCustom | python/lsst/pipe/tasks/functors.py:417-419 | `CustomFunctor` keeps the expression passed, which must be a string, with the call's keywords as options |
| Loader.ConstructMag | python/lsst/pipe/tasks/functors.py:567-576 | `Mag`, `MagErr` and `NanoMaggie` keep the flux column of the column passed, and succeed only without a calibration |
| Loader.ConstructMagDiff | python/lsst/pipe/tasks/functors.py:644-647 | `MagDiff` keeps the flux columns of both columns passed |
| Loader.ConstructColor | python/lsst/pipe/tasks/functors.py:697-708 | `Color` keeps the flux column and two different filters passed, and takes no `filt` keyword |
| Loader.ColorInit | python/lsst/pipe/tasks/functors.py:697-708 | `Color.__init__` builds a well-formed colour, and only without a `filt` keyword |
| Loader.ColorFromBound | python/lsst/pipe/tasks/functors.py:697-708 | a colour built from bound arguments keeps the flux column and the two filters |
| Loader.InitFunctorFromKeywords | python/lsst/pipe/tasks/functors.py:115-118 | `Functor.__init__` called with typed options by keyword succeeds and keeps them |
| Loader.BindOptions | python/lsst/pipe/tasks/functors.py:45 | a subclass's parameters bind when at least the required ones come by position and only options by keyword; the options pass on unchanged |
| Loader.OptionsPassOn | python/lsst/pipe/tasks/functors.py:448-450 | the options of a call that binds reach `Functor.__init__` unchanged |
| Loader.ConstructBound | python/lsst/pipe/tasks/functors.py:45 | a subclass whose arguments bind runs its `__init__` on them |
| Loader.ConstructColumnSucceeds | python/lsst/pipe/tasks/functors.py:448-450 | `Column(c, **options)` succeeds for any string `c` and typed options, and gives the column `c` with those options |
| Loader.ConstructCustomSucceeds | python/lsst/pipe/tasks/functors.py:417-419 | `CustomFunctor(e, **options)` succeeds for any string `e` and typed options |
| Loader.ConstructMagSucceeds | python/lsst/pipe/tasks/functors.py:567-576 | `Mag(c, **options)`, `MagErr` and `NanoMaggie` succeed for any string `c` and typed options, on the flux column of `c` |
| Loader.ConstructMagDiffSucceeds | python/lsst/pipe/tasks/functors.py:644-647 | `MagDiff(c1, c2, **options)` succeeds on any two strings, on their flux columns |
| Loader.ConstructColorSucceeds | python/lsst/pipe/tasks/functors.py:697-708 | `Color(c, f2, f1, **options)` succeeds on different string filters and typed options without `filt` |
| Loader.ColorFromOptions | python/lsst/pipe/tasks/functors.py:697-708 | `Color.__init__` on typed bound arguments succeeds, building both inner `Mag`s |
| Loader.MagWithFilter | python/lsst/pipe/tasks/functors.py:704-705 | the `Mag(col, filt=f, **kwargs)` a colour builds succeeds on typed options without `filt` |
| Loader.FromBoundColor | python/lsst/pipe/tasks/functors.py:697-708 | `Color`'s branch of the subclass bodies is `Color.__init__` |
| Loader.InitFromDict | python/lsst/pipe/tasks/functors.py:13-49 | a missing `functor` entry raises `KeyError`, an unknown type `ImportError`; otherwise the result is the class called with the `args` (a lone string as one argument, a mapping as its keys) and the remaining entries as keywords, and a failed construction is re-raised naming the functor and its type |
| Loader.StarArgs | python/lsst/pipe/tasks/functors.py:39-45 | no `args` gives no positional arguments, a string one argument, a list its items, a mapping its keys; a boolean, null or number is not iterable |
| Loader.KeyArgs | python/lsst/pipe/tasks/functors.py:45 | `*` on a mapping passes its keys, in order, one argument each |
| Loader.StringArgsAreOneArgument | python/lsst/pipe/tasks/functors.py:40-43 | a string under `args` behaves exactly like a list that holds it |
| Composite.PushFilt | python/lsst/pipe/tasks/functors.py:289-291 | every child gets the filter except a colour, which ignores it; the keys and their order are kept |
| Composite.Pushed | python/lsst/pipe/tasks/functors.py:288-292 | an unset filter leaves the children alone; a set one is pushed to them |
| Composite.PushFiltIdempotent | python/lsst/pipe/tasks/functors.py:303-304 | pushing the same filter again changes nothing |
| Composite.KeyedByShortname | python/lsst/pipe/tasks/functors.py:277 | a list of functors becomes a dictionary keyed by short name |
| Composite.KeyedByShortnameLastWins | python/lsst/pipe/tasks/functors.py:277 | a functor with no later namesake is stored under its short name |
| Composite.KeyedByShortnameKeys | python/lsst/pipe/tasks/functors.py:277 | the keys are exactly the short names of the list |
| Composite.ChildrenColumns | python/lsst/pipe/tasks/functors.py:306-308 | the union of the children's columns, failing iff some child's columns fail |
| Composite.ChildrenKeys | python/lsst/pipe/tasks/functors.py:310-312 | the union of the children's keys; the error raised is that of the first child that fails, and every child before it succeeds |
| Composite.CompleteRows | python/lsst/pipe/tasks/functors.py:339-340 | the positions of the rows with no missing value, in increasing order |
| Composite.DropIncomplete | python/lsst/pipe/tasks/functors.py:339-340 | `dropna(how='any')` keeps exactly the complete rows, in order, with all their values |
| Composite.Concat | python/lsst/pipe/tasks/functors.py:333-340 | concatenating no columns raises `ValueError`; otherwise the columns are named by the keys, and `dropna` drops the incomplete rows |
| Composite.ChildFrame | python/lsst/pipe/tasks/functors.py:324 | a child's sub-frame keeps the loaded frame's index |
| Composite.ChildValues | python/lsst/pipe/tasks/functors.py:325-327 | a child's column is its transform's output, or `fail(subdf)` when that raises |
| Composite.MultilevelResults | python/lsst/pipe/tasks/functors.py:321-327 | one column per child, each as long as the frame |
| Composite.PlainResults | python/lsst/pipe/tasks/functors.py:331 | on a plain table, any child's transform raising raises the whole call; otherwise each child's output is its column |
| Composite.Evaluation | python/lsst/pipe/tasks/functors.py:314-342 | the result's columns are named by the dictionary's keys; without `dropna` it keeps the table's index |
| Composite.LookupLoaded | python/lsst/pipe/tasks/functors.py:319-324 | a key that was loaded can be looked up and holds the table's cells |
| Composite.ChildFrameIsOwnLoad | python/lsst/pipe/tasks/functors.py:319-324 | selecting a child's keys from the shared load equals the child loading them itself |
| Composite.ChildValuesAreOwnCall | python/lsst/pipe/tasks/functors.py:322-327 | a child's column in the shared load equals the child called on the table by itself |
| Composite.MultilevelResultsAreOwnCalls | python/lsst/pipe/tasks/functors.py:321-327 | when every child's keys were loaded, every column equals that child's own call |
| Composite.CompositeColumnIsChildCall | python/lsst/pipe/tasks/functors.py:314-334 | on a multilevel table, column j is named by key j and equals that child's own call |
| Composite.PlainFailurePropagates | python/lsst/pipe/tasks/functors.py:328-331 | on a plain table one child's raising transform makes the whole call raise |
| Composite.DropnaDropsIncompleteRows | python/lsst/pipe/tasks/functors.py:339-340 | with `dropna` the result is the result without it, less its incomplete rows |
| Composite.CollectMultilevel | python/lsst/pipe/tasks/functors.py:321-327 | the loop over the children computes exactly `MultilevelResults` |
| Composite.Builds | python/lsst/pipe/tasks/functors.py:363-364 | each definition is built by `init_fromDict` under its own name |
| Composite.Collect | python/lsst/pipe/tasks/functors.py:363-364 | on success, every name has its built functor, in order |
| Composite.Build | python/lsst/pipe/tasks/functors.py:363-364 | a built functor is well-formed, and a failing construction names its definition |
| Composite.CollectFirstFailure | python/lsst/pipe/tasks/functors.py:363-364 | the loop fails iff some definition fails, and then with the first failure's error |
| Composite.CollectStopsAtFailure | python/lsst/pipe/tasks/functors.py:363-364 | once a prefix of the definitions fails, the rest changes nothing |
| Composite.FlagColumn | python/lsst/pipe/tasks/functors.py:373 | a flag is a `Column` of that flag in the given dataset, with no filter |
| Composite.FlagColumns | python/lsst/pipe/tasks/functors.py:372-377 | each flag is stored under its renamed name |
| Composite.AssembleFlag | python/lsst/pipe/tasks/functors.py:375-377 | the last `flags` entry under a name wins, as a `meas` column |
| Composite.AssembleRefFlag | python/lsst/pipe/tasks/functors.py:371-377 | a `refFlags` entry that no later flag renames onto is a `ref` column |
| Composite.AssembleKeeps | python/lsst/pipe/tasks/functors.py:362-377 | a built functor that no flag renames onto stays |
| Composite.AssembleNames | python/lsst/pipe/tasks/functors.py:362-377 | the names are exactly the definitions' names and the renamed flags |
| Composite.TranslationFuncs | python/lsst/pipe/tasks/functors.py:361-377 | a missing `funcs` raises `KeyError`; the result fails iff some definition fails |
| Composite.TranslationFailsOnFirstBadDefinition | python/lsst/pipe/tasks/functors.py:363-364 | the error is that of the first definition that fails, and all before it succeed |
| Composite.CollectedKept | python/lsst/pipe/tasks/functors.py:362-377 | a built functor whose name no flag renames onto is in the result |
| Composite.FuncsKept | python/lsst/pipe/tasks/functors.py:362-377 | each definition whose name no flag takes is stored as `init_fromDict` built it |
| Composite.RefFlagsBeatFuncs | python/lsst/pipe/tasks/functors.py:371-377 | a renamed `refFlags` entry replaces a definition of the same name, unless a `flags` entry takes it |
| Composite.FlagsWin | python/lsst/pipe/tasks/functors.py:375-377 | a renamed `flags` entry replaces everything else of the same name |
| Composite.TranslationNames | python/lsst/pipe/tasks/functors.py:362-377 | the names are exactly the `funcs` keys and the renamed flags |
| Composite.StoreBuilt | python/lsst/pipe/tasks/functors.py:362-364 | the loop stores every built functor, or stops with the first error |
| Composite.AddFlags | python/lsst/pipe/tasks/functors.py:371-377 | the loop stores one `Column` per flag under its renamed name |
| Composite.Initial | python/lsst/pipe/tasks/functors.py:274-277 | a dict is kept as given; a list is keyed by short name |
| Composite.CompositeFunctor.constructor | python/lsst/pipe/tasks/functors.py:272-281 | the children are taken from `funcs` and get the filter; the dataset defaults to `ref` |
| Composite.CompositeFunctor.SetFilt | python/lsst/pipe/tasks/functors.py:287-292 | the filter is stored and pushed to every child; `None` leaves the children alone |
| Composite.CompositeFunctor.Update | python/lsst/pipe/tasks/functors.py:294-304 | a dict or a composite is merged and then gets the current filter; anything else raises `TypeError` and changes nothing |
| Composite.CompositeFunctor.Columns | python/lsst/pipe/tasks/functors.py:306-308 | fails iff some child is a bare `Functor`; otherwise each column once, and exactly the children's columns |
| Composite.CompositeFunctor.MultilevelColumns | python/lsst/pipe/tasks/functors.py:310-312 | fails iff some child fails; otherwise each key once, and exactly the children's keys |
| Composite.CompositeFunctor.Call | python/lsst/pipe/tasks/functors.py:314-342 | the call computes `Evaluation`, so each of its lemmas holds for the call |
| Composite.CompositeFunctor.RenameCol | python/lsst/pipe/tasks/functors.py:344-351 | no rules leave the name alone; otherwise the rules apply in order |
| Composite.CompositeFunctor.FromYaml | python/lsst/pipe/tasks/functors.py:360-379 | fails with the translation's first error; otherwise a new composite holding the translated functors, with the filter pushed to them, the dataset given (`ref` by default) and the `noDup` given |
| BrightStars.Trunc | python/lsst/pipe/tasks/processBrightStars.py:174-175 | `int()` truncates toward zero |
| BrightStars.ModelSize | python/lsst/pipe/tasks/processBrightStars.py:174-175 | `int(size * buffer)` truncates the product; a buffer of at least 1 never shrinks a size |
| BrightStars.ModelStamp | python/lsst/pipe/tasks/processBrightStars.py:174-182 | as written: raises `TypeError` iff a scaled size is even; otherwise the size and its central pixel |
| BrightStars.OddSize | python/lsst/pipe/tasks/processBrightStars.py:176-180 | an even size becomes the next odd one; an odd size is kept |
| BrightStars.OddModelStamp | python/lsst/pipe/tasks/processBrightStars.py:174-182 | as intended: the size is always odd, at most one pixel above the scaled size, with its central pixel; it agrees with `ModelStamp` wherever that succeeds |
| BrightStars.DefaultModelStamp | python/lsst/pipe/tasks/processBrightStars.py:174-182 | a stamp of 250 pixels with a buffer of 1.1 gives a model stamp of 275 pixels centred on pixel 137 |
| BrightStars.EvenStampWithoutBufferRaises | python/lsst/pipe/tasks/processBrightStars.py:177-178 | an even stamp with a buffer of 1 raises |
| BrightStars.ModelStampCoversStamp | python/lsst/pipe/tasks/processBrightStars.py:174-175 | a buffer of at least 1 gives a model stamp no smaller than the stamp and no larger than the scaled size |
| BrightStars.BufferCovers | python/lsst/pipe/tasks/processBrightStars.py:174-175 | the same bounds on one axis |
| BrightStars.ClipAxis | python/lsst/pipe/tasks/processBrightStars.py:249-262 | a box starting below zero starts at 0 and keeps its end; otherwise its end is capped at the exposure's size |
| BrightStars.IdealBox | python/lsst/pipe/tasks/processBrightStars.py:238-241 | the box has the stamp's size, and its corner is the star's pixel position less half the stamp, made an integer point |
| BrightStars.Missed | python/lsst/pipe/tasks/processBrightStars.py:245-247 | a star is skipped iff its box and the exposure share no point on some axis, touching edges counting as shared |
| BrightStars.Overlap | python/lsst/pipe/tasks/processBrightStars.py:249-262 | a box overhanging one side of an axis is clipped to its intersection with the exposure; a box starting before 0 starts at 0 and keeps its end |
| BrightStars.ClipIsIntersection | python/lsst/pipe/tasks/processBrightStars.py:245-262 | for a kept box that overhangs one side at most, the clipped axis is its intersection with the exposure |
| BrightStars.ClipAtMostOnce | python/lsst/pipe/tasks/processBrightStars.py:253-257 | a box overhanging both sides is clipped only at the start and still runs past the exposure |
| BrightStars.TouchingBoxIsKept | python/lsst/pipe/tasks/processBrightStars.py:245-247 | a box that only touches the exposure's edge passes the strict skip test (it is not skipped), and its overlap has zero extent on that axis |
| BrightStars.StampFor | python/lsst/pipe/tasks/processBrightStars.py:234-263 | a cutout that fits is used; otherwise a box that misses the exposure skips the star, and any other box is kept with its clipped overlap |
| BrightStars.EntryFor | python/lsst/pipe/tasks/processBrightStars.py:231-278 | a star that gets a stamp contributes its stamp, pixel centre, magnitude and id |
| BrightStars.SelectedPositions | python/lsst/pipe/tasks/processBrightStars.py:226-247 | the positions of the stars that are bright and not skipped |
| BrightStars.Extraction | python/lsst/pipe/tasks/processBrightStars.py:224-278 | at most one entry per catalogue star |
| BrightStars.SelectedPositionsAreSelected | python/lsst/pipe/tasks/processBrightStars.py:226-247 | the positions increase, and a position is listed iff its star is bright and not skipped |
| BrightStars.ExtractionFollowsPositions | python/lsst/pipe/tasks/processBrightStars.py:231-278 | entry j of the result is the entry of the star at position j of the selected positions |
| BrightStars.ExtractionIsSelectedStars | python/lsst/pipe/tasks/processBrightStars.py:224-278 | the result lists the selected stars, in catalogue order, each with its own entry |
| BrightStars.BrightCutChangesNothing | python/lsst/pipe/tasks/processBrightStars.py:224-231 | cutting to the bright stars first gives the same result as selecting within the whole catalogue |
| BrightStars.ProcessBrightStarsTask.constructor | python/lsst/pipe/tasks/processBrightStars.py:171-182 | as intended: the model stamp size and centre of `OddModelStamp` |
| BrightStars.ProcessBrightStarsTask.Create | python/lsst/pipe/tasks/processBrightStars.py:171-182 | as written: an even size raises `TypeError` and no task is built; otherwise the task has `ModelStamp`'s size and centre |
| BrightStars.ProcessBrightStarsTask.ExtractStamps | python/lsst/pipe/tasks/processBrightStars.py:187-282 | four lists of equal length: the stamps, pixel centres, magnitudes and ids of the selected stars, assuming every overlap cutout succeeds |
| BrightStars.StarStamp | python/lsst/pipe/tasks/processBrightStars.py:232-263 | the loop body computes exactly `StampFor` |
| BrightStars.ClipBox | python/lsst/pipe/tasks/processBrightStars.py:249-263 | the clipping statements compute the box `Overlap` gives, axis by axis |

## Findings

| source | as written | input that shows it | evidently intended | confidence | as-written member | corrected member |
|---|---|---|---|---|---|---|
| python/lsst/pipe/tasks/processBrightStars.py:177-180 | `self.modelStampSize[0] += 1` assigns into a tuple, so an even model stamp size raises `TypeError` from `__init__` | `stampSize` (250, 250) with `modelStampBuffer` 1.0: the model size is 250 | bump an even size to the next odd one, so the model stamp has a central pixel | high; not executed | BrightStars.EvenStampWithoutBufferRaises | BrightStars.OddModelStamp |

## Left out

- The `DeferredDatasetHandle` branches of `_get_cols` and `CompositeFunctor.__call__`, and `multilevelColumnsGen3`: they read through the data butler, which is not modelled.
- `CompositeFunctor.from_file`: it only opens and parses a YAML file. `FromYaml` takes the parsed definition.
- `doImport` is an explicit registry of the classes the model can build. A name outside it raises `ImportError`.
- The numeric formulas of `Mag`, `MagErr`, `NanoMaggie`, `MagDiff` and `Color`, the `NumStarLabeller` binning, and `DataFrame.eval` are floating-point or foreign code. They are parameters (`Env`). Only their outcome counts: one value per row, or an exception.
- A transform that returns the wrong number of values is treated as if it raised.
- Child functors are values inside the composite's dictionary. Aliasing is not modelled: a functor object shared by two composites, or a `funcs` dict the caller keeps, does not see their later changes.
- `ParquetTable._colsFromDict` and `toDataFrame` are modelled by what they return: the requested keys in order, or a missing-key error.
- `Color.multilevelColumns` builds its keys by level name, so the order of a tuple's levels is not modelled.
- The order of `list(set(...))` is unspecified in Python. `Composite.CompositeFunctor.Columns` and `MultilevelColumns` keep first-seen order and promise only membership and no duplicates.
- Python's `\w` also matches non-ASCII letters. The scans use ASCII letters, digits and underscore.
- Loader.KeyArgs: a YAML mapping under `args` is spread as its keys, and the model keeps those keys as strings. A mapping with keys of another type, such as integers, is not modelled.
- Functors.Minus: on two different indexes pandas aligns the series on the sorted union of their labels. The model takes the union in first-seen order. Its contract promises row-by-row subtraction only on a shared index.
- Loader.OptString: a non-string `filt` or `dataset` in YAML is rejected as a `TypeError`, where Python would store it. The model keeps both as strings.
- Loader.OptBool: a non-boolean `noDup` is rejected in the same way.
- Loader.AsString: a column name or expression that is not a string is rejected. Python stores it, so `Column(5)` and `CustomFunctor(5)` construct and fail only when used. The model keeps names as strings; `Loader.ConstructColumn` and `Loader.ConstructCustom` inherit this.
- Loader.FromBound: `Color` must get string filters. Python also accepts `None` for one of them, as in `Color(col, None, 'r')`; the model rejects it because it keeps filters as strings. `Loader.ConstructColor` inherits this.
- Functors.Name: the base class's `name` returns the class `NotImplementedError` itself rather than a string; the model uses the string "NotImplementedError" in its place.
- Composite.TranslationFuncs: `funcs` must be a mapping of mappings and the flags lists of strings; other YAML shapes are not modelled. A null `funcs` raises `AttributeError`, and a null `refFlags` or `flags` raises `TypeError`; the parsed translation cannot tell null from absent, so the model reads them as absent.
- `processBrightStars.py`:
  - the world coordinate system, `geom.Point2I` rounding and the cutout decision of `getCutout` are parameters (`Imaging`);
  - the magnitude limit's conversion to a flux is a parameter;
  - copying pixels into the padded stamp, `warpStamps`, `measureAndNormalize` and the reference-catalogue loader are image work and I/O, and are not modelled;
  - `minPixelsWithinFrame` only widens the region the loader searches, and is not modelled.
- BrightStars.ProcessBrightStarsTask.ExtractStamps: a stamp is its cutout request or its ideal and overlap boxes, not pixels, because the image work is left out. The second `getCutout`, inside the exception handler, raises when the overlap box still runs past the exposure (a box wider than the exposure, which `ClipAtMostOnce` exhibits); that exception escapes `extractStamps`, while the model appends the padded stamp. More generally, the model assumes this second `getCutout` succeeds for every box that passes the skip test, including a box that only touches the exposure's edge: its overlap has zero extent (`TouchingBoxIsKept`), so the source asks for an empty `Box2I` and a zero-size cutout, which the image library may refuse. The ensures of `ExtractStamps` is therefore stated only for runs where no such cutout raises.
- BrightStars.ModelSize: `stampSize * modelStampBuffer` is a floating-point product. The model takes the buffer as an exact ratio, so rounding in that product is not modelled.
- NaN fluxes: a comparison with NaN is false in Python. The model takes fluxes as real numbers.
