/** The expression functor: which columns a free-form expression needs, and
    how `mag(x)` calls are rewritten before the expression is handed to the
    data-frame evaluator. The three regular expressions of the source are
    written out as scanners over the text (`\w` is the ASCII letters, digits
    and `_`; `\s` is every character `str.isspace` accepts). */
module Expressions {
  import opened Common
  import opened Frames
  import opened Names

  predicate IsWordChar(c: char)
  {
    'a' <= c <= 'z' || 'A' <= c <= 'Z' || '0' <= c <= '9' || c == '_'
  }

  /** The class `[a-zA-Z_]`. */
  predicate IsNameChar(c: char)
  {
    'a' <= c <= 'z' || 'A' <= c <= 'Z' || c == '_'
  }

  /** Python's `\s` on `str`: the characters `str.isspace` accepts. */
  predicate IsSpace(c: char)
  {
    var n := c as int;
    || 9 <= n <= 13 || 0x1c <= n <= 0x20 || n == 0x85 || n == 0xa0 || n == 0x1680
    || 0x2000 <= n <= 0x200a || n == 0x2028 || n == 0x2029 || n == 0x202f || n == 0x205f || n == 0x3000
  }

  /** The length of the run of name characters starting at `i`. */
  function NameRun(s: string, i: nat): (n: nat)
    requires i <= |s|
    ensures i + n <= |s|
    ensures forall j :: i <= j < i + n ==> IsNameChar(s[j])
    ensures i + n < |s| ==> !IsNameChar(s[i + n])
    decreases |s| - i
  {
    if i == |s| || !IsNameChar(s[i]) then 0 else 1 + NameRun(s, i + 1)
  }

  /** The length of the run of word characters (`\w`) starting at `i`. */
  function WordRun(s: string, i: nat): (n: nat)
    requires i <= |s|
    ensures i + n <= |s|
    ensures forall j :: i <= j < i + n ==> IsWordChar(s[j])
    ensures i + n < |s| ==> !IsWordChar(s[i + n])
    decreases |s| - i
  {
    if i == |s| || !IsWordChar(s[i]) then 0 else 1 + WordRun(s, i + 1)
  }

  /** The length of the run of blanks (`\s`) starting at `i`. */
  function SpaceRun(s: string, i: nat): (n: nat)
    requires i <= |s|
    ensures i + n <= |s|
    ensures forall j :: i <= j < i + n ==> IsSpace(s[j])
    ensures i + n < |s| ==> !IsSpace(s[i + n])
    decreases |s| - i
  {
    if i == |s| || !IsSpace(s[i]) then 0 else 1 + SpaceRun(s, i + 1)
  }

  lemma NameRunIs(s: string, i: nat, n: nat)
    requires i + n <= |s| && forall j :: i <= j < i + n ==> IsNameChar(s[j])
    requires i + n < |s| ==> !IsNameChar(s[i + n])
    ensures NameRun(s, i) == n
  {
  }

  lemma WordRunIs(s: string, i: nat, n: nat)
    requires i + n <= |s| && forall j :: i <= j < i + n ==> IsWordChar(s[j])
    requires i + n < |s| ==> !IsWordChar(s[i + n])
    ensures WordRun(s, i) == n
  {
  }

  lemma SpaceRunIs(s: string, i: nat, n: nat)
    requires i + n <= |s| && forall j :: i <= j < i + n ==> IsSpace(s[j])
    requires i + n < |s| ==> !IsSpace(s[i + n])
    ensures SpaceRun(s, i) == n
  {
  }

  /** `s[i..i + k]` is a maximal run of name characters. */
  predicate MaximalRun(s: string, i: int, k: int)
  {
    && 0 <= i && 0 < k && i + k <= |s|
    && (forall j :: i <= j < i + k ==> IsNameChar(s[j]))
    && (i == 0 || !IsNameChar(s[i - 1]))
    && (i + k == |s| || !IsNameChar(s[i + k]))
  }

  /** `re.findall(r'[a-zA-Z_]+', s)`: the maximal runs of name characters. */
  function Identifiers(s: string): (r: seq<string>)
    ensures forall w :: w in r ==> w != [] && forall i :: 0 <= i < |w| ==> IsNameChar(w[i])
    decreases |s|
  {
    if s == [] then []
    else if !IsNameChar(s[0]) then Identifiers(s[1..])
    else
      var n := NameRun(s, 0);
      [s[..n]] + Identifiers(s[n..])
  }

  /** Every maximal run of name characters is among the identifiers. */
  lemma {:induction false} IdentifiersComplete(s: string, i: int, k: int)
    requires MaximalRun(s, i, k)
    ensures s[i..i + k] in Identifiers(s)
    decreases |s|
  {
    var w := s[i..i + k];
    if !IsNameChar(s[0]) {
      SkipStep(s, i, k);
      IdentifiersComplete(s[1..], i - 1, k);
      assert w in Identifiers(s[1..]);
    } else if i == 0 {
      NameRunIs(s, 0, k);
      assert Identifiers(s) == [s[..k]] + Identifiers(s[k..]);
      assert w == s[..k];
    } else {
      var n := TakeStep(s, i, k);
      IdentifiersComplete(s[n..], i - n, k);
      assert w in Identifiers(s[n..]);
    }
  }

  lemma SkipStep(s: string, i: int, k: int)
    requires MaximalRun(s, i, k) && !IsNameChar(s[0])
    ensures 1 <= i && MaximalRun(s[1..], i - 1, k) && s[1..][i - 1..i - 1 + k] == s[i..i + k]
    ensures Identifiers(s) == Identifiers(s[1..])
  {
  }

  lemma TakeStep(s: string, i: int, k: int) returns (n: nat)
    requires MaximalRun(s, i, k) && IsNameChar(s[0]) && i > 0
    ensures 0 < n < i && MaximalRun(s[n..], i - n, k) && s[n..][i - n..i - n + k] == s[i..i + k]
    ensures forall w :: w in Identifiers(s[n..]) ==> w in Identifiers(s)
  {
    n := NameRun(s, 0);
  }

  /** Every identifier returned is a maximal run of name characters of the
      text. */
  lemma {:induction false} IdentifiersSound(s: string, w: string)
    requires w in Identifiers(s)
    ensures exists i, k :: MaximalRun(s, i, k) && s[i..i + k] == w
    decreases |s|
  {
    if !IsNameChar(s[0]) {
      IdentifiersSound(s[1..], w);
      var i, k :| MaximalRun(s[1..], i, k) && s[1..][i..i + k] == w;
      LiftRun(s, 1, i, k);
    } else {
      var n := NameRun(s, 0);
      if w == s[..n] {
        assert MaximalRun(s, 0, n) && s[0..n] == w;
      } else {
        assert w in Identifiers(s[n..]);
        IdentifiersSound(s[n..], w);
        assert n < |s| ==> !IsNameChar(s[n..][0]);
        var i, k :| MaximalRun(s[n..], i, k) && s[n..][i..i + k] == w;
        LiftRun(s, n, i, k);
      }
    }
  }

  /** A maximal run of a suffix `s[d..]` is one of `s`, unless it starts the
      suffix right after a name character. */
  lemma LiftRun(s: string, d: int, i: int, k: int)
    requires 0 < d <= |s| && MaximalRun(s[d..], i, k)
    requires i == 0 ==> !IsNameChar(s[d - 1])
    ensures MaximalRun(s, d + i, k) && s[d + i..d + i + k] == s[d..][i..i + k]
  {
    assert forall j :: i <= j < i + k ==> s[d..][j] == s[d + j];
    if i > 0 {
      assert s[d..][i - 1] == s[d + i - 1];
    }
    if d + i + k < |s| {
      assert s[d..][i + k] == s[d + i + k];
    }
  }

  const MagOpen := "mag("

  /** `s` starts with `mag(`. */
  predicate Opens(s: string)
  {
    |s| >= 4 && s[0] == 'm' && s[1] == 'a' && s[2] == 'g' && s[3] == '('
  }

  /** The blanks that `\s*` takes at `i`: none when blanks are not allowed. */
  function Blanks(s: string, i: nat, spaces: bool): (n: nat)
    requires i <= |s|
    ensures i + n <= |s|
    ensures forall j :: i <= j < i + n ==> IsSpace(s[j])
    ensures !spaces ==> n == 0
  {
    if spaces then SpaceRun(s, i) else 0
  }

  /** `s` starts with a call: `mag(`, blanks (when allowed) on `[4, a)`, the
      word on `[a, b)`, blanks on `[b, c)`, and `)` at `c`. */
  predicate CallAt(s: string, spaces: bool, a: int, b: int, c: int)
  {
    && Opens(s)
    && 4 <= a < b <= c < |s| && s[c] == ')'
    && (!spaces ==> a == 4 && c == b)
    && (forall j :: 4 <= j < a ==> IsSpace(s[j]))
    && (forall j :: a <= j < b ==> IsWordChar(s[j]))
    && (forall j :: b <= j < c ==> IsSpace(s[j]))
  }

  /** A call has one reading only: blanks, words and `)` are disjoint classes. */
  lemma CallDetermined(s: string, spaces: bool, a: int, b: int, c: int)
    requires CallAt(s, spaces, a, b, c)
    ensures a == 4 + Blanks(s, 4, spaces)
    ensures b == a + WordRun(s, a)
    ensures c == b + Blanks(s, b, spaces)
  {
    if spaces {
      SpaceRunIs(s, 4, a - 4);
      SpaceRunIs(s, b, c - b);
    }
    WordRunIs(s, a, b - a);
  }

  /** A match, at the start of `s`, of `mag\((\w+)\)` (or of
      `mag\(\s*(\w+)\s*\)` when `spaces`): the captured argument and the
      length of the whole match. Greedy runs need no backtracking here, as
      `\s`, `\w` and `)` are disjoint classes. */
  function MatchMag(s: string, spaces: bool): (r: Option<(string, nat)>)
    ensures r.Some? ==> 6 <= r.value.1 <= |s| && Opens(s) && s[r.value.1 - 1] == ')'
    ensures r.Some? ==> r.value.0 != [] && forall i :: 0 <= i < |r.value.0| ==> IsWordChar(r.value.0[i])
    ensures r.Some? ==> forall k :: 4 <= k < r.value.1 - 1 ==> IsSpace(s[k]) || IsWordChar(s[k])
  {
    if !Opens(s) then None
    else
      var a := 4 + Blanks(s, 4, spaces);
      var b := a + WordRun(s, a);
      var c := b + Blanks(s, b, spaces);
      if a < b && c < |s| && s[c] == ')' then Some((s[a..b], c + 1)) else None
  }

  /** Every call at the start of the text is matched, with its word. */
  lemma MatchMagComplete(s: string, spaces: bool, a: int, b: int, c: int)
    requires CallAt(s, spaces, a, b, c)
    ensures MatchMag(s, spaces) == Some((s[a..b], c + 1))
  {
    CallDetermined(s, spaces, a, b, c);
  }

  /** Every match is a call at the start of the text, and captures that
      call's word. */
  lemma MatchMagSound(s: string, spaces: bool)
    requires MatchMag(s, spaces).Some?
    ensures exists a, b, c :: CallAt(s, spaces, a, b, c) && MatchMag(s, spaces).value == (s[a..b], c + 1)
  {
    var a := 4 + Blanks(s, 4, spaces);
    var b := a + WordRun(s, a);
    var c := b + Blanks(s, b, spaces);
    assert CallAt(s, spaces, a, b, c);
  }

  /** Every well-formed call is matched: `mag(`, blanks when `spaces`, a
      word, blanks, `)`, whatever follows. */
  lemma MatchMagFinds(pre: string, w: string, post: string, q: string, spaces: bool)
    requires w != [] && forall i :: 0 <= i < |w| ==> IsWordChar(w[i])
    requires forall i :: 0 <= i < |pre| ==> IsSpace(pre[i])
    requires forall i :: 0 <= i < |post| ==> IsSpace(post[i])
    requires !spaces ==> pre == [] && post == []
    ensures MatchMag(MagOpen + pre + w + post + ")" + q, spaces) == Some((w, 5 + |pre| + |w| + |post|))
  {
    var s := MagOpen + pre + w + post + ")" + q;
    CallInText(pre, w, post, q, spaces);
    MatchMagComplete(s, spaces, 4 + |pre|, 4 + |pre| + |w|, 4 + |pre| + |w| + |post|);
  }

  lemma CallInText(pre: string, w: string, post: string, q: string, spaces: bool)
    requires w != [] && forall i :: 0 <= i < |w| ==> IsWordChar(w[i])
    requires forall i :: 0 <= i < |pre| ==> IsSpace(pre[i])
    requires forall i :: 0 <= i < |post| ==> IsSpace(post[i])
    requires !spaces ==> pre == [] && post == []
    ensures CallAt(MagOpen + pre + w + post + ")" + q, spaces, 4 + |pre|, 4 + |pre| + |w|, 4 + |pre| + |w| + |post|)
    ensures (MagOpen + pre + w + post + ")" + q)[4 + |pre|..4 + |pre| + |w|] == w
  {
    var s := MagOpen + pre + w + post + ")" + q;
    var a := 4 + |pre|;
    var b := a + |w|;
    var c := b + |post|;
    assert s[0] == 'm' && s[1] == 'a' && s[2] == 'g' && s[3] == '(';
    assert forall j :: 4 <= j < a ==> s[j] == pre[j - 4];
    assert forall j :: a <= j < b ==> s[j] == w[j - a];
    assert forall j :: b <= j < c ==> s[j] == post[j - b];
    assert s[c] == ')';
    assert s[a..b] == w;
  }

  /** Two matches never overlap: no `mag(` starts inside a match. */
  lemma MatchesDoNotOverlap(s: string, j: int)
    requires MatchMag(s, true).Some? && 0 < j < MatchMag(s, true).value.1
    ensures MatchMag(s[j..], true).None?
  {
    var n := MatchMag(s, true).value.1;
    if j + 3 < n - 1 {
      assert IsSpace(s[j + 3]) || IsWordChar(s[j + 3]);
      assert s[j..][3] == s[j + 3];
    } else if j + 3 == n - 1 {
      assert s[j..][3] == s[j + 3];
    } else {
      assert s[j..][n - 1 - j] == s[n - 1];
    }
    assert !Opens(s[j..]);
  }

  /** `re.findall(r'mag\(\s*(\w+)\s*\)', s)`: the arguments of the `mag`
      calls, left to right, the search resuming after each match. */
  function MagArguments(s: string): (r: seq<string>)
    ensures forall a :: a in r ==> a != [] && forall i :: 0 <= i < |a| ==> IsWordChar(a[i])
    decreases |s|
  {
    if s == [] then []
    else
      var m := MatchMag(s, true);
      if m.Some? then [m.value.0] + MagArguments(s[m.value.1..]) else MagArguments(s[1..])
  }

  /** As matches cannot overlap, the search finds every call of the text. */
  lemma {:induction false} MagArgumentsComplete(s: string, i: int)
    requires 0 <= i < |s| && MatchMag(s[i..], true).Some?
    ensures MatchMag(s[i..], true).value.0 in MagArguments(s)
    decreases |s|
  {
    var m := MatchMag(s, true);
    assert s[0..] == s;
    if m.Some? {
      if 0 < i < m.value.1 {
        MatchesDoNotOverlap(s, i);
      } else if i > 0 {
        assert s[m.value.1..][i - m.value.1..] == s[i..];
        MagArgumentsComplete(s[m.value.1..], i - m.value.1);
      }
    } else {
      assert s[1..][i - 1..] == s[i..];
      MagArgumentsComplete(s[1..], i - 1);
    }
  }

  /** A match of `mag(...)` starts at position `i` of `s` and captures `a`. */
  predicate CapturedAt(s: string, i: int, a: string)
  {
    0 <= i < |s| && MatchMag(s[i..], true).Some? && MatchMag(s[i..], true).value.0 == a
  }

  /** Every argument listed is the capture of a match at some position of
      the text. */
  lemma {:induction false} MagArgumentsSound(s: string, a: string)
    requires a in MagArguments(s)
    ensures exists i :: CapturedAt(s, i, a)
    decreases |s|
  {
    var m := MatchMag(s, true);
    if m.Some? && a == m.value.0 {
      assert s[0..] == s;
      assert CapturedAt(s, 0, a);
    } else {
      var n := if m.Some? then m.value.1 else 1;
      MagArgumentsSound(s[n..], a);
      var j :| CapturedAt(s[n..], j, a);
      CapturedLater(s, n, j, a);
    }
  }

  /** A capture in a suffix is a capture in the whole text. */
  lemma CapturedLater(s: string, n: int, j: int, a: string)
    requires 0 <= n <= |s| && CapturedAt(s[n..], j, a)
    ensures CapturedAt(s, n + j, a)
  {
    assert s[n..][j..] == s[n + j..];
  }


  /** `re.sub(r'mag\((\w+)\)', r'-2.5*log(\g<1>' + suffix + r')/log(10)', s)`;
      text with no `mag(` in it passes unchanged. */
  function RewriteMag(s: string, suffix: string): (r: string)
    ensures (forall i :: 0 <= i <= |s| ==> !Opens(s[i..])) ==> r == s
    decreases |s|
  {
    if s == [] then []
    else
      var m := MatchMag(s, false);
      if m.Some? then
        assert s[0..] == s;
        "-2.5*log(" + m.value.0 + suffix + ")/log(10)" + RewriteMag(s[m.value.1..], suffix)
      else
        assert forall i :: 0 <= i <= |s[1..]| ==> s[1..][i..] == s[i + 1..];
        [s[0]] + RewriteMag(s[1..], suffix)
  }

  /** A call `mag(w)` of a word is rewritten into the magnitude of column
      `w` + `suffix`, and the rewrite carries on after it. */
  lemma RewriteMagCall(w: string, q: string, suffix: string)
    requires w != [] && forall i :: 0 <= i < |w| ==> IsWordChar(w[i])
    ensures RewriteMag(MagOpen + w + ")" + q, suffix) == "-2.5*log(" + w + suffix + ")/log(10)" + RewriteMag(q, suffix)
  {
    MatchMagFinds([], w, [], q, false);
    var s := MagOpen + w + ")" + q;
    assert MagOpen + [] + w + [] + ")" + q == s;
    assert s[5 + |w|..] == q;
  }

  /** `mag_aware_eval`: evaluate with `mag(x)` read as the magnitude of
      column `x`; if that raises, evaluate once more with `mag(x)` read as the
      magnitude of column `x_instFlux`, and let that attempt's failure stand.
      `eval` stands for `DataFrame.eval`, which is not modelled. */
  function MagAwareEval(df: Frame, expr: string, eval: (Frame, string) -> Outcome): (r: Outcome)
    ensures eval(df, RewriteMag(expr, "")).Computed? ==> r == eval(df, RewriteMag(expr, ""))
    ensures eval(df, RewriteMag(expr, "")).Raised? ==> r == eval(df, RewriteMag(expr, InstFlux))
  {
    match eval(df, RewriteMag(expr, ""))
    case Computed(v) => Computed(v)
    case Raised => eval(df, RewriteMag(expr, InstFlux))
  }

  const IgnoreWords: seq<string> := ["mag", "sin", "cos", "exp", "log", "sqrt"]

  predicate NotIgnored(w: string) { w !in IgnoreWords }

  /** A `mag` argument that is not already a flux column name. */
  predicate Bare(a: string) { !EndsWith(a, InstFlux) }

  function Outside(xs: seq<string>): string -> bool
  {
    c => c !in xs
  }

  /** The flux column of each `mag` argument, in order. */
  function FluxNames(args: seq<string>): (r: seq<string>)
    ensures |r| == |args| && forall i :: 0 <= i < |args| ==> r[i] == FluxName(args[i])
  {
    seq(|args|, i requires 0 <= i < |args| => FluxName(args[i]))
  }

  /** The columns `CustomFunctor.columns` reports for `expr`: the identifiers
      other than the ignored function names, plus the flux column of each
      `mag` argument, minus the bare `mag` arguments. Python returns them as
      `list(set(...))`, in no set order; the model lists them in first-seen
      order. */
  function ExprColumns(expr: string): (r: seq<string>)
    ensures NoDuplicates(r)
    ensures forall c :: c in r <==>
              && ((c in Identifiers(expr) && NotIgnored(c)) || c in FluxNames(MagArguments(expr)))
              && !(c in MagArguments(expr) && Bare(c))
  {
    var args := MagArguments(expr);
    var found := Filter(Identifiers(expr), NotIgnored) + FluxNames(args);
    var bare := Filter(args, Bare);
    var kept := Filter(found, Outside(bare));
    assert forall c :: c in kept <==> c in found && c !in bare;
    Dedup(kept)
  }

  /** Every `mag` argument contributes its flux column, and a bare argument
      is not itself reported. */
  lemma MagArgumentsNeedFluxColumns(expr: string, a: string)
    requires a in MagArguments(expr)
    ensures FluxName(a) in ExprColumns(expr)
    ensures Bare(a) ==> a !in ExprColumns(expr)
  {
    var args := MagArguments(expr);
    var i :| 0 <= i < |args| && args[i] == a;
    var f := FluxName(a);
    assert FluxNames(args)[i] == f;
    assert !Bare(f);
  }

  /** The ignored function names are never reported as columns. */
  lemma IgnoredWordsAreNotColumns(expr: string, w: string)
    requires w in IgnoreWords
    ensures w !in ExprColumns(expr)
  {
    assert !NotIgnored(w);
    assert |w| < |InstFlux|;
    assert w !in FluxNames(MagArguments(expr));
  }

  lemma FluxNamesSnoc(args: seq<string>, c: string)
    ensures FluxNames(args + [c]) == FluxNames(args) + [FluxName(c)]
  {
  }

  lemma ExprColumnsUnfold(expr: string)
    ensures ExprColumns(expr) ==
      Dedup(Filter(Filter(Identifiers(expr), NotIgnored) + FluxNames(MagArguments(expr)),
                   Outside(Filter(MagArguments(expr), Bare))))
  {
  }

  /** The loop of `CustomFunctor.columns` over the `mag` arguments: the
      flux column of each argument, in order, and the bare arguments. */
  method CollectFluxColumns(fluxCols: seq<string>) returns (added: seq<string>, notACol: seq<string>)
    ensures added == FluxNames(fluxCols)
    ensures notACol == Filter(fluxCols, Bare)
  {
    added := [];
    notACol := [];
    for i := 0 to |fluxCols|
      invariant added == FluxNames(fluxCols[..i])
      invariant notACol == Filter(fluxCols[..i], Bare)
    {
      var c := fluxCols[i];
      CollectStep(fluxCols, i);
      if Bare(c) {
        assert FluxName(c) == c + InstFlux;
        added := added + [c + InstFlux];
        notACol := notACol + [c];
      } else {
        assert FluxName(c) == c;
        added := added + [c];
      }
    }
    assert fluxCols[..|fluxCols|] == fluxCols;
  }

  /** One argument more: its flux name is appended, and it is noted when
      bare. */
  lemma CollectStep(fluxCols: seq<string>, i: int)
    requires 0 <= i < |fluxCols|
    ensures FluxNames(fluxCols[..i + 1]) == FluxNames(fluxCols[..i]) + [FluxName(fluxCols[i])]
    ensures Filter(fluxCols[..i + 1], Bare) == Filter(fluxCols[..i], Bare) + (if Bare(fluxCols[i]) then [fluxCols[i]] else [])
  {
    assert fluxCols[..i + 1] == fluxCols[..i] + [fluxCols[i]];
    FilterSnoc(fluxCols[..i], fluxCols[i], Bare);
    FluxNamesSnoc(fluxCols[..i], fluxCols[i]);
  }

  /** `CustomFunctor.columns`, as the source computes it: collect the
      identifiers, append one flux column per `mag` argument while noting the
      bare arguments, then drop the bare arguments and the repetitions. */
  method CustomColumns(expr: string) returns (cols: seq<string>)
    ensures cols == ExprColumns(expr)
  {
    var found := Filter(Identifiers(expr), NotIgnored);
    var added, notACol := CollectFluxColumns(MagArguments(expr));
    ExprColumnsUnfold(expr);
    cols := Dedup(Filter(found + added, Outside(notACol)));
  }
}
