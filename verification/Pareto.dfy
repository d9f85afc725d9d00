// internal/optimize/pareto.go and the selection half of eval.go: which variants
// are not beaten by another in every objective.
module Pareto {

  /** One variant's results on one task set. */
  datatype EvalResult = EvalResult(variant: string, pass: real, tokens: int, cost: real, runs: int)

  /** One variant's results on a benchmark. */
  datatype Point = Point(variant: string, pass: real, tokens: int, durationMS: int, modelCalls: int, toolCalls: int)

  /** What either is judged by: pass is better high, tokens and burden (cost or time) better low. */
  datatype Score = Score(pass: real, tokens: int, burden: real)

  function EvalScore(e: EvalResult): Score {
    Score(e.pass, e.tokens, e.cost)
  }

  function PointScore(p: Point): Score {
    Score(p.pass, p.tokens, p.durationMS as real)
  }

  predicate Dominates(a: Score, b: Score) {
    var better := a.pass > b.pass || a.tokens < b.tokens || a.burden < b.burden;
    var noWorse := a.pass >= b.pass && a.tokens <= b.tokens && a.burden <= b.burden;
    better && noWorse
  }

  /** Dominance is a strict partial order on scores. */
  lemma DominanceIsStrictOrder(a: Score, b: Score, c: Score)
    ensures !Dominates(a, a)
    ensures Dominates(a, b) ==> !Dominates(b, a)
    ensures Dominates(a, b) && Dominates(b, c) ==> Dominates(a, c)
    ensures Dominates(a, b) <==> a != b && a.pass >= b.pass && a.tokens <= b.tokens && a.burden <= b.burden
  {
  }

  predicate Beaten<T(==)>(x: T, xs: seq<T>, score: T -> Score) {
    exists y :: y in xs && Dominates(score(y), score(x))
  }

  /** The front, in the order of the input. */
  ghost function Unbeaten<T>(xs: seq<T>, all: seq<T>, score: T -> Score): seq<T> {
    if xs == [] then []
    else
      var front := Unbeaten(xs[..|xs| - 1], all, score);
      if Beaten(xs[|xs| - 1], all, score) then front else front + [xs[|xs| - 1]]
  }

  /** The order results are shown in: best pass first, then fewest tokens. */
  predicate Before(a: Score, b: Score) {
    a.pass > b.pass || (a.pass == b.pass && a.tokens <= b.tokens)
  }

  predicate Ordered<T>(xs: seq<T>, score: T -> Score) {
    forall i, j :: 0 <= i < j < |xs| ==> Before(score(xs[i]), score(xs[j]))
  }

  /** front is what a selection from xs may return. */
  ghost predicate IsSelection<T>(front: seq<T>, xs: seq<T>, score: T -> Score) {
    Ordered(front, score) && multiset(front) == multiset(Unbeaten(xs, xs, score))
  }

  /** sort.Slice by Before: some ordered rearrangement. */
  method SortFront<T>(xs: seq<T>, score: T -> Score) returns (sorted: seq<T>)
    ensures Ordered(sorted, score) && multiset(sorted) == multiset(xs)
  {
    sorted := [];
    var n := 0;
    while n < |xs|
      invariant 0 <= n <= |xs|
      invariant Ordered(sorted, score) && multiset(sorted) == multiset(xs[..n])
    {
      var k := |sorted|;
      while k > 0 && !Before(score(sorted[k - 1]), score(xs[n]))
        invariant 0 <= k <= |sorted|
        invariant forall i :: k <= i < |sorted| ==> Before(score(xs[n]), score(sorted[i]))
      {
        k := k - 1;
      }
      InsertKeepsOrder(sorted, k, xs[n], score);
      InsertAddsOne(sorted, k, xs[n]);
      assert xs[..n + 1] == xs[..n] + [xs[n]];
      sorted := sorted[..k] + [xs[n]] + sorted[k..];
      n := n + 1;
    }
    assert xs[..n] == xs;
  }

  lemma InsertKeepsOrder<T>(xs: seq<T>, k: nat, x: T, score: T -> Score)
    requires k <= |xs| && Ordered(xs, score)
    requires k > 0 ==> Before(score(xs[k - 1]), score(x))
    requires forall i :: k <= i < |xs| ==> Before(score(x), score(xs[i]))
    ensures Ordered(xs[..k] + [x] + xs[k..], score)
  {
    forall i | 0 <= i < k ensures Before(score(xs[i]), score(x)) {
      assert i < k - 1 ==> Before(score(xs[i]), score(xs[k - 1]));
    }
    var ys := xs[..k] + [x] + xs[k..];
    forall i, j | 0 <= i < j < |ys| ensures Before(score(ys[i]), score(ys[j])) {
      assert ys[i] == if i < k then xs[i] else if i == k then x else xs[i - 1];
      assert ys[j] == if j < k then xs[j] else if j == k then x else xs[j - 1];
    }
  }

  lemma InsertAddsOne<T>(xs: seq<T>, k: nat, x: T)
    requires k <= |xs|
    ensures multiset(xs[..k] + [x] + xs[k..]) == multiset(xs) + multiset{x}
  {
    assert xs == xs[..k] + xs[k..];
  }

  /** The selection as the program makes it: each entry against all the others, then the sort. */
  method NonDominated<T>(xs: seq<T>, score: T -> Score) returns (sorted: seq<T>)
    ensures IsSelection(sorted, xs, score)
  {
    var front := [];
    var i := 0;
    while i < |xs|
      invariant 0 <= i <= |xs|
      invariant front == Unbeaten(xs[..i], xs, score)
    {
      var dominated := false;
      var j := 0;
      while j < |xs|
        invariant 0 <= j <= |xs|
        invariant !dominated ==> forall k :: 0 <= k < j ==> !Dominates(score(xs[k]), score(xs[i]))
        invariant dominated ==> Beaten(xs[i], xs, score)
      {
        if i != j && Dominates(score(xs[j]), score(xs[i])) {
          dominated := true;
          break;
        }
        j := j + 1;
      }
      if !dominated {
        front := front + [xs[i]];
      }
      assert xs[..i + 1][..i] == xs[..i];
      i := i + 1;
    }
    assert xs[..i] == xs;
    sorted := SortFront(front, score);
  }

  method SelectCandidates(results: seq<EvalResult>) returns (front: seq<EvalResult>)
    ensures IsSelection(front, results, EvalScore)
  {
    front := NonDominated(results, EvalScore);
  }

  method Front(points: seq<Point>) returns (front: seq<Point>)
    ensures IsSelection(front, points, PointScore)
  {
    front := NonDominated(points, PointScore);
  }

  // ---- What a selection is ----

  lemma {:induction false} UnbeatenCounts<T>(xs: seq<T>, all: seq<T>, score: T -> Score, x: T)
    ensures multiset(Unbeaten(xs, all, score))[x] == if Beaten(x, all, score) then 0 else multiset(xs)[x]
  {
    if xs != [] {
      UnbeatenCounts(xs[..|xs| - 1], all, score, x);
      assert xs == xs[..|xs| - 1] + [xs[|xs| - 1]];
    }
  }

  /**
   * A selection keeps exactly the entries no other dominates, each as often as it
   * was given.
   */
  lemma SelectionIsExact<T>(front: seq<T>, xs: seq<T>, score: T -> Score, x: T)
    requires IsSelection(front, xs, score)
    ensures multiset(front)[x] == if Beaten(x, xs, score) then 0 else multiset(xs)[x]
    ensures x in front <==> x in xs && !Beaten(x, xs, score)
  {
    UnbeatenCounts(xs, xs, score, x);
    assert x in front <==> multiset(front)[x] > 0;
    assert x in xs <==> multiset(xs)[x] > 0;
  }

  ghost function Dominators<T>(xs: seq<T>, score: T -> Score, x: T): set<int> {
    set i | 0 <= i < |xs| && Dominates(score(xs[i]), score(x))
  }

  /** Whatever is left out is dominated by something that was kept. */
  lemma {:induction false} LeftOutIsBeaten<T>(front: seq<T>, xs: seq<T>, score: T -> Score, x: T) returns (y: T)
    requires IsSelection(front, xs, score) && x in xs && x !in front
    ensures y in front && Dominates(score(y), score(x))
    decreases |Dominators(xs, score, x)|
  {
    SelectionIsExact(front, xs, score, x);
    y :| y in xs && Dominates(score(y), score(x));
    if y !in front {
      var k :| 0 <= k < |xs| && xs[k] == y;
      assert k in Dominators(xs, score, x) && k !in Dominators(xs, score, y);
      assert Dominators(xs, score, y) <= Dominators(xs, score, x) - {k};
      SmallerSet(Dominators(xs, score, y), Dominators(xs, score, x) - {k});
      var w := LeftOutIsBeaten(front, xs, score, y);
      y := w;
    }
  }

  lemma SmallerSet(a: set<int>, b: set<int>)
    requires a <= b
    ensures |a| <= |b|
  {
    assert b == a + (b - a);
  }

  /** Selecting from a selection keeps everything. */
  lemma ReselectKeepsAll<T>(front: seq<T>, xs: seq<T>, again: seq<T>, score: T -> Score)
    requires IsSelection(front, xs, score) && IsSelection(again, front, score)
    ensures multiset(again) == multiset(front)
  {
    forall x ensures multiset(again)[x] == multiset(front)[x] {
      SelectionIsExact(again, front, score, x);
      SelectionIsExact(front, xs, score, x);
      if x in front && Beaten(x, front, score) {
        var y :| y in front && Dominates(score(y), score(x));
        SelectionIsExact(front, xs, score, y);
        assert Beaten(x, xs, score);
      }
    }
  }

  /** Within a front no entry has both the better pass and the fewer tokens for no more burden. */
  lemma FrontTradesOff<T>(front: seq<T>, xs: seq<T>, score: T -> Score, i: nat, j: nat)
    requires IsSelection(front, xs, score) && i < j < |front|
    ensures var a, b := score(front[i]), score(front[j]);
            a == b || a.tokens > b.tokens || a.burden > b.burden
  {
    SelectionIsExact(front, xs, score, front[j]);
    SelectionIsExact(front, xs, score, front[i]);
  }

  // ---- Selections in terms of the results ----

  /** y is at least as good as x in pass, tokens and cost, and better in one of them. */
  predicate BetterResult(y: EvalResult, x: EvalResult) {
    && y.pass >= x.pass && y.tokens <= x.tokens && y.cost <= x.cost
    && (y.pass > x.pass || y.tokens < x.tokens || y.cost < x.cost)
  }

  /** y is at least as good as x in pass, tokens and time, and better in one of them. */
  predicate BetterPoint(y: Point, x: Point) {
    && y.pass >= x.pass && y.tokens <= x.tokens && y.durationMS <= x.durationMS
    && (y.pass > x.pass || y.tokens < x.tokens || y.durationMS < x.durationMS)
  }

  /** The selected results are those no other betters, best pass first and fewest tokens among equals. */
  lemma SelectedResults(front: seq<EvalResult>, xs: seq<EvalResult>)
    requires IsSelection(front, xs, EvalScore)
    ensures forall x :: x in front <==> x in xs && forall y :: y in xs ==> !BetterResult(y, x)
    ensures forall i, j :: 0 <= i < j < |front| ==>
              front[i].pass > front[j].pass || (front[i].pass == front[j].pass && front[i].tokens <= front[j].tokens)
  {
    forall x ensures x in front <==> x in xs && forall y :: y in xs ==> !BetterResult(y, x) {
      SelectionIsExact(front, xs, EvalScore, x);
      assert forall y :: BetterResult(y, x) <==> Dominates(EvalScore(y), EvalScore(x));
    }
    assert forall i, j :: 0 <= i < j < |front| ==> Before(EvalScore(front[i]), EvalScore(front[j]));
  }

  /** The same for points, judged by time. */
  lemma SelectedPoints(front: seq<Point>, xs: seq<Point>)
    requires IsSelection(front, xs, PointScore)
    ensures forall x :: x in front <==> x in xs && forall y :: y in xs ==> !BetterPoint(y, x)
    ensures forall i, j :: 0 <= i < j < |front| ==>
              front[i].pass > front[j].pass || (front[i].pass == front[j].pass && front[i].tokens <= front[j].tokens)
  {
    forall x ensures x in front <==> x in xs && forall y :: y in xs ==> !BetterPoint(y, x) {
      SelectionIsExact(front, xs, PointScore, x);
      assert forall y :: BetterPoint(y, x) <==> Dominates(PointScore(y), PointScore(x));
    }
    assert forall i, j :: 0 <= i < j < |front| ==> Before(PointScore(front[i]), PointScore(front[j]));
  }
}
