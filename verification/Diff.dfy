// internal/diff/diff.go, Compare: aligning two runs and finding where they part.
module Diff {
  import opened Wrappers
  import opened Steps

  /** What two steps are compared by; the text hashes in it are taken to be injective. */
  datatype Key = ToolKey(name: string, args: string) | ModelKey(content: string) | ErrorKey(message: string)

  function KeyOf(s: Step): Key {
    match s.typ
    case ToolStep => ToolKey(s.name, s.args)
    case ModelStep => ModelKey(s.content)
    case ErrorStep => ErrorKey(s.result)
  }

  /** The steps count as the same: one tool called with the same arguments, one answer, or one error. */
  predicate SameStep(x: Step, y: Step) {
    && x.typ == y.typ
    && (x.typ.ToolStep? ==> x.name == y.name && x.args == y.args)
    && (x.typ.ModelStep? ==> x.content == y.content)
    && (x.typ.ErrorStep? ==> x.result == y.result)
  }

  lemma KeysTellSteps(x: Step, y: Step)
    ensures KeyOf(x) == KeyOf(y) <==> SameStep(x, y)
  {
  }

  /** Two runs with the same steps in the same order. */
  predicate SameSteps(a: seq<Step>, b: seq<Step>) {
    |a| == |b| && forall i :: 0 <= i < |a| ==> SameStep(a[i], b[i])
  }

  /** The runs have n steps in common and then differ, or one of them ends. */
  predicate PartAt(a: seq<Step>, b: seq<Step>, n: nat) {
    && n <= |a| && n <= |b|
    && (forall i :: 0 <= i < n ==> SameStep(a[i], b[i]))
    && (n < |a| && n < |b| ==> !SameStep(a[n], b[n]))
  }

  lemma PartAtLcp(a: seq<Step>, b: seq<Step>)
    ensures PartAt(a, b, Lcp(a, b))
  {
    var n := Lcp(a, b);
    forall i | 0 <= i < n ensures SameStep(a[i], b[i]) {
      KeysTellSteps(a[i], b[i]);
    }
    if n < |a| && n < |b| {
      KeysTellSteps(a[n], b[n]);
    }
  }

  // ---- Longest common subsequences ----

  /** c can be had from ks by leaving elements out. */
  ghost predicate IsSubsequence(c: seq<Key>, ks: seq<Key>) {
    c == []
    || (ks != []
        && ((c[|c| - 1] == ks[|ks| - 1] && IsSubsequence(c[..|c| - 1], ks[..|ks| - 1]))
            || IsSubsequence(c, ks[..|ks| - 1])))
  }

  function Keys(ss: seq<Step>): seq<Key> {
    seq(|ss|, i requires 0 <= i < |ss| => KeyOf(ss[i]))
  }

  /** The table's recurrence. */
  function Lcs(a: seq<Step>, b: seq<Step>, i: nat, j: nat): nat
    requires i <= |a| && j <= |b|
  {
    if i == 0 || j == 0 then 0
    else if KeyOf(a[i - 1]) == KeyOf(b[j - 1]) then Lcs(a, b, i - 1, j - 1) + 1
    else if Lcs(a, b, i - 1, j) > Lcs(a, b, i, j - 1) then Lcs(a, b, i - 1, j)
    else Lcs(a, b, i, j - 1)
  }

  lemma KeysPrefix(ss: seq<Step>, i: nat)
    requires 0 < i <= |ss|
    ensures Keys(ss[..i])[..i - 1] == Keys(ss[..i - 1]) && Keys(ss[..i])[i - 1] == KeyOf(ss[i - 1])
  {
  }

  /** Some common subsequence is as long as the table says. */
  lemma {:induction false} LcsAttained(a: seq<Step>, b: seq<Step>, i: nat, j: nat) returns (c: seq<Key>)
    requires i <= |a| && j <= |b|
    ensures |c| == Lcs(a, b, i, j) && IsSubsequence(c, Keys(a[..i])) && IsSubsequence(c, Keys(b[..j]))
  {
    if i == 0 || j == 0 {
      c := [];
    } else {
      KeysPrefix(a, i);
      KeysPrefix(b, j);
      if KeyOf(a[i - 1]) == KeyOf(b[j - 1]) {
        var front := LcsAttained(a, b, i - 1, j - 1);
        c := front + [KeyOf(a[i - 1])];
        assert c[..|c| - 1] == front;
      } else if Lcs(a, b, i - 1, j) > Lcs(a, b, i, j - 1) {
        c := LcsAttained(a, b, i - 1, j);
      } else {
        c := LcsAttained(a, b, i, j - 1);
      }
    }
  }

  lemma {:induction false} FrontIsSubsequence(c: seq<Key>, ks: seq<Key>)
    requires c != [] && IsSubsequence(c, ks)
    ensures IsSubsequence(c[..|c| - 1], ks[..|ks| - 1])
  {
    if !(c[|c| - 1] == ks[|ks| - 1] && IsSubsequence(c[..|c| - 1], ks[..|ks| - 1])) {
      FrontIsSubsequence(c, ks[..|ks| - 1]);
      SubsequenceExtends(c[..|c| - 1], ks[..|ks| - 1]);
    }
  }

  lemma SubsequenceExtends(c: seq<Key>, ks: seq<Key>)
    requires ks != [] && IsSubsequence(c, ks[..|ks| - 1])
    ensures IsSubsequence(c, ks)
  {
  }

  /** No common subsequence is longer. */
  lemma {:induction false} LcsLongest(a: seq<Step>, b: seq<Step>, i: nat, j: nat, c: seq<Key>)
    requires i <= |a| && j <= |b|
    requires IsSubsequence(c, Keys(a[..i])) && IsSubsequence(c, Keys(b[..j]))
    ensures |c| <= Lcs(a, b, i, j)
  {
    if i > 0 && j > 0 && c != [] {
      KeysPrefix(a, i);
      KeysPrefix(b, j);
      var last := c[|c| - 1];
      if KeyOf(a[i - 1]) == KeyOf(b[j - 1]) {
        FrontIsSubsequence(c, Keys(a[..i]));
        FrontIsSubsequence(c, Keys(b[..j]));
        LcsLongest(a, b, i - 1, j - 1, c[..|c| - 1]);
      } else if last != KeyOf(a[i - 1]) {
        LcsLongest(a, b, i - 1, j, c);
      } else {
        LcsLongest(a, b, i, j - 1, c);
      }
    }
  }

  /** The cell at row i, column j, from its three neighbours. */
  lemma LcsCell(a: seq<Step>, b: seq<Step>, i: nat, j: nat)
    requires 0 < i <= |a| && 0 < j <= |b|
    ensures Lcs(a, b, i, j) == if KeyOf(a[i - 1]) == KeyOf(b[j - 1]) then Lcs(a, b, i - 1, j - 1) + 1
                               else if Lcs(a, b, i - 1, j) > Lcs(a, b, i, j - 1) then Lcs(a, b, i - 1, j)
                               else Lcs(a, b, i, j - 1)
  {
  }

  /** The table has a column for each prefix of b and a row for each prefix of a. */
  predicate Sized(dp: array2<int>, a: seq<Step>, b: seq<Step>) {
    dp.Length0 == |a| + 1 && dp.Length1 == |b| + 1
  }

  /** Row i is right in its first n columns. */
  ghost predicate RowHolds(dp: array2<int>, a: seq<Step>, b: seq<Step>, i: nat, n: nat)
    requires Sized(dp, a, b) && i <= |a| && n <= |b| + 1
    reads dp
  {
    forall j: nat {:trigger dp[i, j]} :: j < n ==> dp[i, j] == Lcs(a, b, i, j)
  }

  method FillRow(a: seq<Step>, b: seq<Step>, dp: array2<int>, i: nat)
    requires Sized(dp, a, b) && 0 < i <= |a|
    requires RowHolds(dp, a, b, i - 1, |b| + 1) && dp[i, 0] == 0
    modifies dp
    ensures RowHolds(dp, a, b, i, |b| + 1)
    ensures forall x: nat, y: nat {:trigger dp[x, y]} :: x <= |a| && x != i && y <= |b| ==> dp[x, y] == old(dp[x, y])
  {
    var j := 1;
    while j <= |b|
      invariant 1 <= j <= |b| + 1
      invariant RowHolds(dp, a, b, i, j)
      invariant forall x: nat, y: nat {:trigger dp[x, y]} :: x <= |a| && x != i && y <= |b| ==> dp[x, y] == old(dp[x, y])
    {
      LcsCell(a, b, i, j);
      if KeyOf(a[i - 1]) == KeyOf(b[j - 1]) {
        dp[i, j] := dp[i - 1, j - 1] + 1;
      } else if dp[i - 1, j] > dp[i, j - 1] {
        dp[i, j] := dp[i - 1, j];
      } else {
        dp[i, j] := dp[i, j - 1];
      }
      j := j + 1;
    }
  }

  /** The table holds, for every pair of prefixes, the length of their longest common subsequence. */
  method LcsTable(a: seq<Step>, b: seq<Step>) returns (dp: array2<int>)
    ensures fresh(dp) && Sized(dp, a, b)
    ensures forall i: nat {:trigger RowHolds(dp, a, b, i, |b| + 1)} :: i <= |a| ==> RowHolds(dp, a, b, i, |b| + 1)
  {
    dp := new int[|a| + 1, |b| + 1]((i, j) => 0);
    var i := 1;
    while i <= |a|
      invariant 1 <= i <= |a| + 1
      invariant forall x: nat {:trigger RowHolds(dp, a, b, x, |b| + 1)} :: x < i ==> RowHolds(dp, a, b, x, |b| + 1)
      invariant forall x: nat {:trigger dp[x, 0]} :: i <= x <= |a| ==> dp[x, 0] == 0
    {
      label row: FillRow(a, b, dp, i);
      forall x: nat {:trigger RowHolds(dp, a, b, x, |b| + 1)} | x < i ensures RowHolds(dp, a, b, x, |b| + 1) {
        assert old@row(RowHolds(dp, a, b, x, |b| + 1));
      }
      i := i + 1;
    }
  }

  // ---- The comparison ----

  datatype Line = Line(stepA: nat, stepB: nat, a: Option<Step>, b: Option<Step>, divergence: bool)

  datatype Divergence = Divergence(stepA: nat, stepB: nat, a: Option<Step>, b: Option<Step>)

  datatype Comparison = Comparison(lines: seq<Line>, first: Option<Divergence>, identical: bool,
                                   stepA: nat, stepB: nat)

  /** The length of the longest common prefix, by key. */
  function Lcp(a: seq<Step>, b: seq<Step>): (n: nat)
    ensures n <= |a| && n <= |b|
    ensures forall i :: 0 <= i < n ==> KeyOf(a[i]) == KeyOf(b[i])
    ensures n < |a| && n < |b| ==> KeyOf(a[n]) != KeyOf(b[n])
  {
    if a == [] || b == [] || KeyOf(a[0]) != KeyOf(b[0]) then 0 else 1 + Lcp(a[1..], b[1..])
  }

  lemma LcpUnique(a: seq<Step>, b: seq<Step>, n: nat)
    requires n <= |a| && n <= |b|
    requires forall i :: 0 <= i < n ==> KeyOf(a[i]) == KeyOf(b[i])
    requires n < |a| && n < |b| ==> KeyOf(a[n]) != KeyOf(b[n])
    ensures n == Lcp(a, b)
  {
  }

  function CommonLines(a: seq<Step>, b: seq<Step>, n: nat): seq<Line>
    requires n <= |a| && n <= |b|
  {
    seq(n, i requires 0 <= i < n => Line(i + 1, i + 1, Some(a[i]), Some(b[i]), false))
  }

  /** Lines n to m of the first run alone, the first of them marked. */
  function TailA(a: seq<Step>, n: nat, m: nat): seq<Line>
    requires n <= m <= |a|
  {
    seq(m - n, i requires 0 <= i < m - n => Line(n + i + 1, 0, Some(a[n + i]), None, i == 0))
  }

  function TailB(b: seq<Step>, n: nat, m: nat): seq<Line>
    requires n <= m <= |b|
  {
    seq(m - n, i requires 0 <= i < m - n => Line(0, n + i + 1, None, Some(b[n + i]), i == 0))
  }

  /** Comparing by the longest common prefix, with no table. */
  function Compared(a: seq<Step>, b: seq<Step>): Comparison {
    var n := Lcp(a, b);
    var common := CommonLines(a, b, n);
    if n < |a| && n < |b| then
      Comparison(common + [Line(n + 1, n + 1, Some(a[n]), Some(b[n]), true)],
                 Some(Divergence(n + 1, n + 1, Some(a[n]), Some(b[n]))), false, n + 1, n + 1)
    else if n < |a| then
      Comparison(common + TailA(a, n, |a|), Some(Divergence(n + 1, n + 1, Some(a[n]), None)), false, n + 1, n + 1)
    else if n < |b| then
      Comparison(common + TailB(b, n, |b|), Some(Divergence(n + 1, n + 1, None, Some(b[n]))), false, n + 1, n + 1)
    else
      Comparison(common, None, true, 0, 0)
  }

  /** The comparison as the program makes it, table and walk included. */
  method Compare(a: seq<Step>, b: seq<Step>) returns (d: Comparison)
    ensures d == Compared(a, b)
  {
    var n, m := |a|, |b|;
    var dp := LcsTable(a, b);
    var lines: seq<Line> := [];
    var first: Option<Divergence> := None;
    var i, j := 0, 0;
    while i < n && j < m
      invariant 0 <= i == j <= n && j <= m
      invariant first.None?
      invariant forall k :: 0 <= k < i ==> KeyOf(a[k]) == KeyOf(b[k])
      invariant lines == CommonLines(a, b, i)
    {
      if KeyOf(a[i]) == KeyOf(b[j]) {
        lines := lines + [Line(i + 1, j + 1, Some(a[i]), Some(b[j]), false)];
        i := i + 1;
        j := j + 1;
        continue;
      }
      LcpUnique(a, b, i);
      if dp[i + 1, j] >= dp[i, j + 1] {
        lines := lines + [Line(i + 1, j + 1, Some(a[i]), Some(b[j]), true)];
        first := Some(Divergence(i + 1, j + 1, Some(a[i]), Some(b[j])));
        i := i + 1;
      } else {
        lines := lines + [Line(i + 1, j + 1, Some(a[i]), Some(b[j]), true)];
        first := Some(Divergence(i + 1, j + 1, Some(a[i]), Some(b[j])));
        j := j + 1;
      }
      break;
    }
    var identical := false;
    if first.None? {
      LcpUnique(a, b, i);
      var tail;
      tail, first := Tails(a, b, i);
      lines := lines + tail;
      identical := |a| == |b|;
    }
    d := Comparison(lines, first, identical,
                    if first.Some? then first.value.stepA else 0, if first.Some? then first.value.stepB else 0);
  }

  /** What follows the common prefix when one run has no step left. */
  method Tails(a: seq<Step>, b: seq<Step>, p: nat) returns (lines: seq<Line>, first: Option<Divergence>)
    requires p <= |a| && p <= |b| && (p == |a| || p == |b|)
    ensures lines == TailA(a, p, |a|) + TailB(b, p, |b|)
    ensures first == if p < |a| then Some(Divergence(p + 1, p + 1, Some(a[p]), None))
                     else if p < |b| then Some(Divergence(p + 1, p + 1, None, Some(b[p])))
                     else None
  {
    lines, first := [], None;
    var i, j := p, p;
    var isFirst := true;
    while i < |a|
      invariant p <= i <= |a|
      invariant isFirst == (i == p)
      invariant lines == TailA(a, p, i)
      invariant first == if i > p then Some(Divergence(p + 1, p + 1, Some(a[p]), None)) else None
    {
      lines := lines + [Line(i + 1, 0, Some(a[i]), None, isFirst)];
      if isFirst {
        first := Some(Divergence(i + 1, j + 1, Some(a[i]), None));
      }
      isFirst := false;
      i := i + 1;
    }
    ghost var others, before := lines, first;
    while j < |b|
      invariant p <= j <= |b|
      invariant p < |b| ==> p == i && others == [] && isFirst == (j == p)
      invariant lines == others + TailB(b, p, j)
      invariant first == if j > p then Some(Divergence(p + 1, p + 1, None, Some(b[p]))) else before
    {
      lines := lines + [Line(0, j + 1, None, Some(b[j]), isFirst)];
      if isFirst {
        first := Some(Divergence(i + 1, j + 1, None, Some(b[j])));
      }
      isFirst := false;
      j := j + 1;
    }
  }

  ghost predicate OneMark(lines: seq<Line>, k: int) {
    0 <= k < |lines| && forall i :: 0 <= i < |lines| ==> (lines[i].divergence <==> i == k)
  }

  /**
   * What a comparison tells: two runs are identical exactly when they took the same
   * steps, which is when no divergence is reported; otherwise exactly one line is
   * marked, the lines before it are the steps in common, and the steps it names are
   * the first that differ, or the one the shorter run lacks.
   */
  lemma {:induction false} ComparedMeaning(a: seq<Step>, b: seq<Step>)
    ensures var d, n := Compared(a, b), Lcp(a, b);
            && PartAt(a, b, n)
            && (d.identical <==> SameSteps(a, b))
            && (d.identical <==> d.first.None?)
            && |d.lines| >= n
            && (forall i :: 0 <= i < n ==> d.lines[i] == Line(i + 1, i + 1, Some(a[i]), Some(b[i]), false))
            && (d.identical ==> |d.lines| == n)
            && (!d.identical ==> OneMark(d.lines, n)
                                 && d.first.value.a == (if n < |a| then Some(a[n]) else None)
                                 && d.first.value.b == (if n < |b| then Some(b[n]) else None)
                                 && d.stepA == d.stepB == n + 1)
  {
    PartAtLcp(a, b);
  }

  lemma PartAtIsLcp(a: seq<Step>, b: seq<Step>, n: nat)
    requires PartAt(a, b, n)
    ensures n == Lcp(a, b)
  {
    forall i | 0 <= i < n ensures KeyOf(a[i]) == KeyOf(b[i]) {
      KeysTellSteps(a[i], b[i]);
    }
    if n < |a| && n < |b| {
      KeysTellSteps(a[n], b[n]);
    }
    LcpUnique(a, b, n);
  }

  /** The lines of the steps in common, and of the two that differ where both runs go on. */
  lemma LinesInCommon(a: seq<Step>, b: seq<Step>, n: nat)
    requires PartAt(a, b, n)
    ensures var lines := Compared(a, b).lines;
            && |lines| == (if n < |a| && n < |b| then n + 1 else if n < |a| then |a| else |b|)
            && (forall i :: 0 <= i < n ==> lines[i] == Line(i + 1, i + 1, Some(a[i]), Some(b[i]), false))
            && (n < |a| && n < |b| ==> lines[n] == Line(n + 1, n + 1, Some(a[n]), Some(b[n]), true))
  {
    PartAtIsLcp(a, b, n);
  }

  /** The lines of the longer run once the other has ended. */
  lemma LinesAlone(a: seq<Step>, b: seq<Step>, n: nat, i: nat)
    requires PartAt(a, b, n) && (n == |a| || n == |b|)
    requires n <= i < |Compared(a, b).lines|
    ensures n == |b| && i < |a| ==> Compared(a, b).lines[i] == Line(i + 1, 0, Some(a[i]), None, i == n)
    ensures n == |a| && i < |b| ==> Compared(a, b).lines[i] == Line(0, i + 1, None, Some(b[i]), i == n)
  {
    PartAtIsLcp(a, b, n);
  }

  /** The lines: the steps in common, then where both go on the two that differ, or else the rest of the longer run. */
  lemma ComparedLines(a: seq<Step>, b: seq<Step>, n: nat)
    requires PartAt(a, b, n)
    ensures var lines := Compared(a, b).lines;
            && |lines| == (if n < |a| && n < |b| then n + 1 else if n < |a| then |a| else |b|)
            && (forall i :: 0 <= i < n ==> lines[i] == Line(i + 1, i + 1, Some(a[i]), Some(b[i]), false))
            && (n < |a| && n < |b| ==> lines[n] == Line(n + 1, n + 1, Some(a[n]), Some(b[n]), true))
            && (n == |b| ==> forall i :: n <= i < |a| ==> lines[i] == Line(i + 1, 0, Some(a[i]), None, i == n))
            && (n == |a| ==> forall i :: n <= i < |b| ==> lines[i] == Line(0, i + 1, None, Some(b[i]), i == n))
  {
    LinesInCommon(a, b, n);
    forall i | n <= i < |a| && n == |b| ensures Compared(a, b).lines[i] == Line(i + 1, 0, Some(a[i]), None, i == n) {
      LinesAlone(a, b, n, i);
    }
    forall i | n <= i < |b| && n == |a| ensures Compared(a, b).lines[i] == Line(0, i + 1, None, Some(b[i]), i == n) {
      LinesAlone(a, b, n, i);
    }
  }

  function MirrorLine(l: Line): Line {
    Line(l.stepB, l.stepA, l.b, l.a, l.divergence)
  }

  function Mirror(d: Comparison): Comparison {
    Comparison(seq(|d.lines|, i requires 0 <= i < |d.lines| => MirrorLine(d.lines[i])),
               if d.first.Some? then Some(Divergence(d.first.value.stepB, d.first.value.stepA, d.first.value.b, d.first.value.a)) else None,
               d.identical, d.stepB, d.stepA)
  }

  lemma CommonMirrors(a: seq<Step>, b: seq<Step>, n: nat, i: nat)
    requires i < n <= |a| && n <= |b|
    ensures CommonLines(b, a, n)[i] == MirrorLine(CommonLines(a, b, n)[i])
  {
  }

  lemma LineMirrors(a: seq<Step>, b: seq<Step>, i: nat)
    requires Lcp(a, b) == Lcp(b, a)
    requires i < |Compared(a, b).lines| == |Compared(b, a).lines|
    ensures Compared(b, a).lines[i] == MirrorLine(Compared(a, b).lines[i])
  {
    if i < Lcp(a, b) {
      CommonMirrors(a, b, Lcp(a, b), i);
    }
  }

  /** Comparing the other way round mirrors the comparison. */
  lemma ComparedMirrors(a: seq<Step>, b: seq<Step>)
    ensures Compared(b, a) == Mirror(Compared(a, b))
  {
    LcpUnique(b, a, Lcp(a, b));
    assert |Compared(b, a).lines| == |Compared(a, b).lines|;
    forall i: nat | i < |Compared(a, b).lines| ensures Compared(b, a).lines[i] == MirrorLine(Compared(a, b).lines[i]) {
      LineMirrors(a, b, i);
    }
    assert Compared(b, a).lines == Mirror(Compared(a, b)).lines;
  }

  // ---- The documented step numbers ----

  /** A divergence gives step 0 to a run that has ended, and only to one that has. */
  predicate EndedRunsHaveStepZero(d: Comparison) {
    d.first.Some? ==> (d.stepA == 0 <==> d.first.value.a.None?) && (d.stepB == 0 <==> d.first.value.b.None?)
  }

  /** That holds exactly when the runs took the same steps or part while both go on. */
  lemma StepZeroIff(a: seq<Step>, b: seq<Step>)
    ensures EndedRunsHaveStepZero(Compared(a, b)) <==> SameSteps(a, b) || (Lcp(a, b) < |a| && Lcp(a, b) < |b|)
    ensures PartAt(a, b, Lcp(a, b))
  {
    ComparedMeaning(a, b);
  }

  /** A run against an empty one: the ended run is given step 1. */
  lemma EndedRunNumbered(x: Step)
    ensures Compared([x], []).first == Some(Divergence(1, 1, Some(x), None))
    ensures Compared([x], []).stepB == 1 && !EndedRunsHaveStepZero(Compared([x], []))
  {
    ComparedMeaning([x], []);
  }
}
