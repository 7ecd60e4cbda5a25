/** Column-name helpers: the flux-column suffix convention, Python's
    `str.replace`, and the ordered prefix rules that rename flag columns. */
module Names {
  import opened Common

  const InstFlux := "_instFlux"
  const InstFluxErr := "_instFluxErr"

  /** `fluxName`: the name of the flux column behind `col`. */
  function FluxName(col: string): (r: string)
    ensures EndsWith(r, InstFlux)
    ensures StartsWith(r, col)
    ensures EndsWith(col, InstFlux) ==> r == col
    ensures !EndsWith(col, InstFlux) ==> r == col + InstFlux
  {
    if EndsWith(col, InstFlux) then col else col + InstFlux
  }

  /** `fluxErrName`: the name of the flux-error column behind `col`. */
  function FluxErrName(col: string): (r: string)
    ensures EndsWith(r, InstFluxErr)
    ensures StartsWith(r, col)
    ensures EndsWith(col, InstFluxErr) ==> r == col
    ensures !EndsWith(col, InstFluxErr) ==> r == col + InstFluxErr
  {
    if EndsWith(col, InstFluxErr) then col else col + InstFluxErr
  }

  lemma FluxNameIdempotent(col: string)
    ensures FluxName(FluxName(col)) == FluxName(col)
    ensures FluxErrName(FluxErrName(col)) == FluxErrName(col)
  {
  }

  /** `sep` before, between and after the characters of `s`: what
      `s.replace('', sep)` yields. */
  function Interleave(s: string, sep: string): (r: string)
    ensures |r| == |s| + (|s| + 1) * |sep|
    ensures StartsWith(r, sep) && EndsWith(r, sep)
    decreases |s|
  {
    if s == [] then sep else sep + [s[0]] + Interleave(s[1..], sep)
  }

  /** `s.replace(pattern, replacement)`: every non-overlapping occurrence of
      `pattern`, found scanning left to right, is replaced, not only the first
      one or a prefix. */
  function ReplaceAll(s: string, pattern: string, replacement: string): (r: string)
    ensures pattern != [] && StartsWith(s, pattern) ==> StartsWith(r, replacement)
    ensures |pattern| == |replacement| ==> |r| == |s|
    decreases |s|
  {
    if pattern == [] then Interleave(s, replacement)
    else if |s| < |pattern| then s
    else if s[..|pattern|] == pattern then replacement + ReplaceAll(s[|pattern|..], pattern, replacement)
    else [s[0]] + ReplaceAll(s[1..], pattern, replacement)
  }

  predicate OccursAt(s: string, pattern: string, i: int)
  {
    0 <= i && i + |pattern| <= |s| && s[i..i + |pattern|] == pattern
  }

  lemma {:induction false} InterleaveNothing(s: string)
    ensures Interleave(s, "") == s
    decreases |s|
  {
    if s != [] {
      InterleaveNothing(s[1..]);
    }
  }

  /** Replacing a pattern by itself changes nothing. */
  lemma {:induction false} ReplaceBySelf(s: string, pattern: string)
    ensures ReplaceAll(s, pattern, pattern) == s
    decreases |s|
  {
    if pattern == [] {
      InterleaveNothing(s);
    } else if |s| >= |pattern| {
      if s[..|pattern|] == pattern {
        ReplaceBySelf(s[|pattern|..], pattern);
        assert s == pattern + s[|pattern|..];
      } else {
        ReplaceBySelf(s[1..], pattern);
        assert s == [s[0]] + s[1..];
      }
    }
  }

  /** A non-empty pattern that never occurs leaves the string as it is. */
  lemma {:induction false} ReplaceAbsent(s: string, pattern: string, replacement: string)
    requires pattern != []
    requires forall i :: !OccursAt(s, pattern, i)
    ensures ReplaceAll(s, pattern, replacement) == s
    decreases |s|
  {
    if |s| >= |pattern| {
      assert !OccursAt(s, pattern, 0);
      assert s[0..|pattern|] == s[..|pattern|];
      forall i ensures !OccursAt(s[1..], pattern, i) {
        if OccursAt(s[1..], pattern, i) {
          assert s[1..][i..i + |pattern|] == s[i + 1..i + 1 + |pattern|];
          assert OccursAt(s, pattern, i + 1);
        }
      }
      ReplaceAbsent(s[1..], pattern, replacement);
      assert s == [s[0]] + s[1..];
    }
  }

  /** One rename rule: it fires only when `col` starts with its old prefix,
      and then rewrites every occurrence of that prefix in `col`. */
  function ApplyRule(col: string, rule: (string, string)): (r: string)
    ensures !StartsWith(col, rule.0) ==> r == col
    ensures rule.0 != [] && StartsWith(col, rule.0) ==> StartsWith(r, rule.1)
    ensures |rule.0| == |rule.1| ==> |r| == |col|
  {
    if StartsWith(col, rule.0) then ReplaceAll(col, rule.0, rule.1) else col
  }

  /** The rules applied one after another, each to the result of the previous. */
  function ApplyRules(col: string, rules: seq<(string, string)>): (r: string)
    ensures (forall i :: 0 <= i < |rules| ==> !StartsWith(col, rules[i].0)) ==> r == col
    ensures (forall i :: 0 <= i < |rules| ==> |rules[i].0| == |rules[i].1|) ==> |r| == |col|
    decreases |rules|
  {
    if rules == [] then col else ApplyRules(ApplyRule(col, rules[0]), rules[1..])
  }

  /** `CompositeFunctor.renameCol`: no rules at all means no renaming. */
  function Renamed(col: string, rules: Option<seq<(string, string)>>): (r: string)
    ensures rules.None? || rules.value == [] ==> r == col
    ensures rules.Some? ==> r == ApplyRules(col, rules.value)
  {
    if rules.None? then col else ApplyRules(col, rules.value)
  }

  /** Rules apply in order: a rule list split in two is the first part
      followed by the second. */
  lemma {:induction false} ApplyRulesInOrder(col: string, first: seq<(string, string)>, second: seq<(string, string)>)
    ensures ApplyRules(col, first + second) == ApplyRules(ApplyRules(col, first), second)
    decreases |first|
  {
    if first == [] {
      assert first + second == second;
    } else {
      assert (first + second)[1..] == first[1..] + second;
      ApplyRulesInOrder(ApplyRule(col, first[0]), first[1..], second);
    }
  }

  /** A rule fires on a name that starts with its (non-empty) old prefix:
      the prefix is replaced, and so is every later occurrence of it. */
  lemma ApplyRuleRewritesEveryOccurrence(rest: string, prefix: string, replacement: string)
    requires prefix != []
    ensures ApplyRule(prefix + rest, (prefix, replacement)) == replacement + ReplaceAll(rest, prefix, replacement)
  {
    var s := prefix + rest;
    assert s[..|prefix|] == prefix;
    assert s[|prefix|..] == rest;
  }
}
