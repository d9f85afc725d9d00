// What holds in every state of every interleaving of a wave.
module WaveSafety {
  import opened Wrappers
  import opened WorkerPool

  /** The job a worker has taken and not settled, dropped ones included. */
  function Held(w: Worker): Option<nat> {
    match w
    case CheckingContext(j) => Some(j)
    case CheckingStop(j) => Some(j)
    case Running(j) => Some(j)
    case Adding(j, _) => Some(j)
    case Loading(j, _) => Some(j)
    case Swapping(j, _) => Some(j)
    case Locking(j, _) => Some(j)
    case Reporting(j, _) => Some(j)
    case Dropped(j) => Some(j)
    case _ => None
  }

  /** How many jobs the feeder has handed over. */
  function Sent(c: Config, f: Feeder): nat {
    match f
    case AtContext(j) => j
    case AtStop(j) => j
    case AtBudget(j) => j
    case Sleeping(j) => j
    case Sending(j) => j
    case Returned(j) => j
    case _ => c.jobs
  }

  /** The feeder is on its way to send its next job. */
  predicate Feeding(f: Feeder) {
    !f.Closing? && !f.Closed? && !f.Returned?
  }

  // ---- Shape: indices, the pool, and who may have left ----

  ghost predicate ShapeInv(c: Config, s: State) {
    && |s.workers| == c.parallel
    && (Feeding(s.feeder) || s.feeder.Returned? ==> s.feeder.next < c.jobs)
    && (s.feeder.Returned? ==> s.stop || s.cancelled)
    && (s.cancelled ==> c.cancellable)
    && forall w :: 0 <= w < |s.workers| ==>
         && (s.workers[w].Dropped? ==> s.stop || s.cancelled)
         && (s.workers[w].Ended? ==> s.feeder.Closed?)
  }

  // ---- The mutex, and the failed list it protects ----

  predicate InSection(w: Worker) {
    w.Reporting? || w.Noting? || w.Unlocking?
  }

  ghost predicate MutexInv(s: State) {
    && (s.mu.Some? ==> s.mu.value < |s.workers|)
    && forall w :: 0 <= w < |s.workers| ==> (InSection(s.workers[w]) <==> s.mu == Some(w))
  }

  /** The jobs of the settled outcomes that carry an error, in order. */
  function Errored(report: seq<Settled>): seq<nat> {
    if report == [] then []
    else
      var last := report[|report| - 1];
      Errored(report[..|report| - 1]) + if last.outcome.errored then [last.job] else []
  }

  /** What a worker between reporting its outcome and noting a failure has reported. */
  function NoteOf(w: Worker): Option<Settled> {
    if w.Noting? then Some(Settled(w.noted, w.result)) else None
  }

  /** The failed list lags the report by at most the outcome being noted. */
  ghost predicate FailedInv(s: State) {
    && (forall w :: 0 <= w < |s.workers| && NoteOf(s.workers[w]).Some? ==>
          && s.report != []
          && s.report[|s.report| - 1] == NoteOf(s.workers[w]).value
          && s.failed == Errored(s.report[..|s.report| - 1]))
    && ((forall w :: 0 <= w < |s.workers| ==> NoteOf(s.workers[w]).None?) ==> s.failed == Errored(s.report))
  }

  // ---- Where each job is ----

  ghost predicate PlaceInv(c: Config, s: State) {
    && (forall w :: 0 <= w < |s.workers| && Held(s.workers[w]).Some?
          ==> Held(s.workers[w]).value < Sent(c, s.feeder))
    && (forall w, x :: 0 <= w < x < |s.workers| && Held(s.workers[w]).Some?
          ==> Held(s.workers[w]) != Held(s.workers[x]))
    && (forall i :: 0 <= i < |s.report| ==> s.report[i].job < Sent(c, s.feeder))
    && (forall i, k :: 0 <= i < k < |s.report| ==> s.report[i].job != s.report[k].job)
    && (forall w, i :: 0 <= w < |s.workers| && 0 <= i < |s.report|
          ==> Held(s.workers[w]) != Some(s.report[i].job))
    && forall p :: 0 <= p < Sent(c, s.feeder) ==> HasHolder(s, p) || HasReport(s, p)
  }

  ghost predicate HasHolder(s: State, p: int) {
    exists w :: 0 <= w < |s.workers| && HeldBy(s, p, w)
  }

  predicate HeldBy(s: State, p: int, w: int)
    requires 0 <= w < |s.workers|
  {
    Held(s.workers[w]).Some? && Held(s.workers[w]).value == p
  }

  ghost predicate HasReport(s: State, p: int) {
    exists i :: 0 <= i < |s.report| && s.report[i].job == p
  }

  // ---- Tokens ----

  /** Workers whose job is in no report yet. */
  predicate Holding(w: Worker) {
    Held(w).Some?
  }

  /** Workers that added their tokens and have not reported them. */
  predicate Added(w: Worker) {
    w.Loading? || w.Swapping? || w.Locking? || w.Reporting?
  }

  /** n times c, by repeated addition. */
  function Times(n: nat, c: nat): nat {
    if n == 0 then 0 else Times(n - 1, c) + c
  }

  lemma {:induction false} TimesIsProduct(n: nat, c: nat)
    ensures Times(n, c) == n * c
  {
    if n > 0 {
      TimesIsProduct(n - 1, c);
      assert n * c == (n - 1) * c + c;
    }
  }

  lemma {:induction false} TimesGrows(m: nat, n: nat, c: nat)
    requires m <= n
    ensures Times(m, c) <= Times(n, c)
    decreases n - m
  {
    if m < n {
      TimesGrows(m + 1, n, c);
    }
  }

  function SumTokens(report: seq<Settled>): int {
    if report == [] then 0 else SumTokens(report[..|report| - 1]) + report[|report| - 1].outcome.tokens
  }

  function Carried(w: Worker): int {
    if Added(w) then w.o.tokens else 0
  }

  function InFlight(ws: seq<Worker>): int {
    if ws == [] then 0 else Carried(ws[0]) + InFlight(ws[1..])
  }

  predicate LegalWorker(c: Config, w: Worker) {
    && (w.Adding? || Added(w) ==> Legal(c, w.o))
    && (w.Noting? ==> Legal(c, w.result))
  }

  ghost predicate LegalInv(c: Config, s: State) {
    && (forall w :: 0 <= w < |s.workers| ==> LegalWorker(c, s.workers[w]))
    && (forall i :: 0 <= i < |s.report| ==> Legal(c, s.report[i].outcome))
  }

  /** The counter holds what was reported and what is on its way to the report. */
  ghost predicate SumInv(s: State) {
    s.tokens == SumTokens(s.report) + InFlight(s.workers)
  }

  ghost predicate CapInv(c: Config, s: State) {
    0 <= s.tokens <= Times(|s.report| + Count(s.workers, Added), c.maxJobTokens)
  }

  ghost predicate SentInv(c: Config, s: State) {
    |s.report| + Count(s.workers, Holding) == Sent(c, s.feeder)
  }

  ghost predicate TokenInv(c: Config, s: State) {
    LegalInv(c, s) && SumInv(s) && CapInv(c, s) && SentInv(c, s) && (s.stop ==> OverBudget(c, s))
  }

  // ---- The budget ----

  /** Workers that will add no tokens before they see the stop flag set. */
  predicate IsSpent(stop: bool, w: Worker) {
    w.Loading? || w.Swapping? || (stop && !w.Running? && !w.Adding?)
  }

  function Spent(stop: bool): Worker -> bool {
    w => IsSpent(stop, w)
  }

  predicate WillStop(w: Worker) {
    w.Loading? || w.Swapping?
  }

  ghost predicate BudgetInv(c: Config, s: State) {
    && (OverBudget(c, s) ==> s.tokens <= c.maxTokens - 1 + Times(Count(s.workers, Spent(s.stop)), c.maxJobTokens))
    && (OverBudget(c, s) && !s.stop ==> exists w :: 0 <= w < |s.workers| && WillStop(s.workers[w]))
    && (forall w :: 0 <= w < |s.workers| && (s.workers[w].Loading? || s.workers[w].Swapping?) ==> c.maxTokens > 0)
    && (forall w :: 0 <= w < |s.workers| && s.workers[w].Swapping? ==> OverBudget(c, s))
  }

  ghost predicate Inv(c: Config, s: State) {
    ShapeInv(c, s) && MutexInv(s) && FailedInv(s) && PlaceInv(c, s) && TokenInv(c, s) && BudgetInv(c, s)
  }

  lemma {:induction false} InFlightUpdate(ws: seq<Worker>, w: nat, x: Worker)
    requires w < |ws|
    ensures InFlight(ws[w := x])
         == InFlight(ws) - Carried(ws[w]) + Carried(x)
  {
    if w == 0 {
      assert ws[0 := x][1..] == ws[1..];
    } else {
      assert ws[w := x][1..] == ws[1..][w - 1 := x];
      InFlightUpdate(ws[1..], w - 1, x);
    }
  }

  lemma {:induction false} NothingInFlight(ws: seq<Worker>)
    requires forall w :: 0 <= w < |ws| ==> !Added(ws[w])
    ensures InFlight(ws) == 0
  {
    if ws != [] {
      assert forall w :: 0 <= w < |ws[1..]| ==> ws[1..][w] == ws[w + 1];
      NothingInFlight(ws[1..]);
    }
  }

  lemma InitHolds(c: Config)
    ensures Inv(c, Init(c))
  {
    var s := Init(c);
    NothingInFlight(s.workers);
    CountBound(s.workers, Added);
    CountBound(s.workers, Holding);
  }

  lemma ShapeStep(c: Config, s: State, a: Action)
    requires ShapeInv(c, s) && Enabled(c, s, a)
    ensures ShapeInv(c, Apply(c, s, a))
  {
  }

  /** A worker's step takes or leaves the mutex for itself only. */
  lemma MutexMove(c: Config, s: State, a: Action)
    requires MutexInv(s) && Enabled(c, s, a) && OfWorker(a)
    ensures var s' := Apply(c, s, a);
            && (InSection(s'.workers[a.w]) <==> s'.mu == Some(a.w))
            && forall x :: x != a.w ==> (s'.mu == Some(x) <==> s.mu == Some(x))
  {
  }

  lemma MutexStep(c: Config, s: State, a: Action)
    requires MutexInv(s) && Enabled(c, s, a)
    ensures MutexInv(Apply(c, s, a))
  {
    if OfWorker(a) {
      OneWorkerMoves(c, s, a);
      MutexMove(c, s, a);
    }
  }

  lemma FailedKept(s: State, s': State)
    requires FailedInv(s)
    requires |s'.workers| == |s.workers| && s'.report == s.report && s'.failed == s.failed
    requires forall w :: 0 <= w < |s.workers| ==> NoteOf(s'.workers[w]) == NoteOf(s.workers[w])
    ensures FailedInv(s')
  {
  }

  lemma FailedReport(c: Config, s: State, w: nat)
    requires MutexInv(s) && FailedInv(s) && Enabled(c, s, Work(w)) && s.workers[w].Reporting?
    ensures FailedInv(Apply(c, s, Work(w)))
  {
    var s' := Apply(c, s, Work(w));
    assert InSection(s.workers[w]);
    assert forall x :: 0 <= x < |s.workers| && x != w ==> !InSection(s.workers[x]);
    assert s'.report[..|s'.report| - 1] == s.report;
    assert NoteOf(s'.workers[w]).Some?;
  }

  lemma FailedNote(c: Config, s: State, w: nat)
    requires MutexInv(s) && FailedInv(s) && Enabled(c, s, Work(w)) && s.workers[w].Noting?
    ensures FailedInv(Apply(c, s, Work(w)))
  {
    var s' := Apply(c, s, Work(w));
    assert InSection(s.workers[w]);
    assert forall x :: 0 <= x < |s.workers| && x != w ==> !InSection(s.workers[x]);
    assert NoteOf(s.workers[w]).Some?;
    assert Errored(s.report) == Errored(s.report[..|s.report| - 1]) + if s.workers[w].result.errored then [s.workers[w].noted] else [];
    assert s'.failed == Errored(s.report);
  }

  lemma NotesKept(c: Config, s: State, a: Action)
    requires Enabled(c, s, a)
    requires a.Work? ==> !s.workers[a.w].Reporting? && !s.workers[a.w].Noting?
    ensures var s' := Apply(c, s, a);
            && |s'.workers| == |s.workers| && s'.report == s.report && s'.failed == s.failed
            && forall w :: 0 <= w < |s.workers| ==> NoteOf(s'.workers[w]) == NoteOf(s.workers[w])
  {
  }

  lemma FailedStep(c: Config, s: State, a: Action)
    requires MutexInv(s) && FailedInv(s) && Enabled(c, s, a)
    ensures FailedInv(Apply(c, s, a))
  {
    if a.Work? && s.workers[a.w].Reporting? {
      FailedReport(c, s, a.w);
    } else if a.Work? && s.workers[a.w].Noting? {
      FailedNote(c, s, a.w);
    } else {
      NotesKept(c, s, a);
      FailedKept(s, Apply(c, s, a));
    }
  }

  /** Steps that hand over nothing and settle nothing leave every job in its place. */
  lemma PlacesKept(c: Config, s: State, s': State)
    requires PlaceInv(c, s)
    requires |s'.workers| == |s.workers| && s'.report == s.report && Sent(c, s'.feeder) == Sent(c, s.feeder)
    requires forall w :: 0 <= w < |s.workers| ==> Held(s'.workers[w]) == Held(s.workers[w])
    ensures PlaceInv(c, s')
  {
    forall p | 0 <= p < Sent(c, s'.feeder) ensures HasHolder(s', p) || HasReport(s', p) {
      if HasHolder(s, p) {
        var w :| 0 <= w < |s.workers| && HeldBy(s, p, w);
        assert HeldBy(s', p, w);
      } else {
        assert HasReport(s, p);
      }
    }
  }

  lemma PlacesSend(c: Config, s: State, w: nat)
    requires ShapeInv(c, s) && PlaceInv(c, s) && Enabled(c, s, Send(w))
    ensures PlaceInv(c, Apply(c, s, Send(w)))
  {
    var s' := Apply(c, s, Send(w));
    assert Sent(c, s'.feeder) == Sent(c, s.feeder) + 1;
    forall p | 0 <= p < Sent(c, s'.feeder) ensures HasHolder(s', p) || HasReport(s', p) {
      if p == Sent(c, s.feeder) {
        assert HeldBy(s', p, w);
      } else if HasHolder(s, p) {
        var x :| 0 <= x < |s.workers| && HeldBy(s, p, x);
        assert HeldBy(s', p, x);
      } else {
        assert HasReport(s, p);
      }
    }
  }

  lemma PlacesReport(c: Config, s: State, w: nat)
    requires PlaceInv(c, s) && Enabled(c, s, Work(w)) && s.workers[w].Reporting?
    ensures PlaceInv(c, Apply(c, s, Work(w)))
  {
    var s' := Apply(c, s, Work(w));
    assert HeldBy(s, s.workers[w].job, w);
    forall p | 0 <= p < Sent(c, s'.feeder) ensures HasHolder(s', p) || HasReport(s', p) {
      ReportKeepsPlace(c, s, w, p);
    }
  }

  lemma ReportKeepsPlace(c: Config, s: State, w: nat, p: int)
    requires Enabled(c, s, Work(w)) && s.workers[w].Reporting?
    requires HasHolder(s, p) || HasReport(s, p)
    ensures HasHolder(Apply(c, s, Work(w)), p) || HasReport(Apply(c, s, Work(w)), p)
  {
    var s' := Apply(c, s, Work(w));
    assert s'.report[|s.report|].job == s.workers[w].job;
    if HasHolder(s, p) {
      var x :| 0 <= x < |s.workers| && HeldBy(s, p, x);
      if x == w {
        assert s'.report[|s.report|].job == p;
      } else {
        assert HeldBy(s', p, x);
      }
    } else {
      var i :| 0 <= i < |s.report| && s.report[i].job == p;
      assert s'.report[i].job == p;
    }
  }

  lemma PlaceStep(c: Config, s: State, a: Action)
    requires ShapeInv(c, s) && PlaceInv(c, s) && Enabled(c, s, a)
    ensures PlaceInv(c, Apply(c, s, a))
  {
    if a.Send? {
      PlacesSend(c, s, a.w);
    } else if a.Work? && s.workers[a.w].Reporting? {
      PlacesReport(c, s, a.w);
    } else {
      HeldKept(c, s, a);
      PlacesKept(c, s, Apply(c, s, a));
    }
  }

  /** A worker that settles nothing goes on holding what it holds. */
  lemma HoldsOn(c: Config, s: State, a: Action)
    requires Enabled(c, s, a) && OfWorker(a) && !a.Send?
    requires a.Work? ==> !s.workers[a.w].Reporting?
    ensures Held(Apply(c, s, a).workers[a.w]) == Held(s.workers[a.w])
    ensures Apply(c, s, a).report == s.report && Apply(c, s, a).feeder == s.feeder
  {
  }

  lemma HeldKept(c: Config, s: State, a: Action)
    requires ShapeInv(c, s) && Enabled(c, s, a)
    requires !a.Send? && (a.Work? ==> !s.workers[a.w].Reporting?)
    ensures var s' := Apply(c, s, a);
            && |s'.workers| == |s.workers| && s'.report == s.report && Sent(c, s'.feeder) == Sent(c, s.feeder)
            && forall w :: 0 <= w < |s.workers| ==> Held(s'.workers[w]) == Held(s.workers[w])
  {
    if OfWorker(a) {
      OneWorkerMoves(c, s, a);
      HoldsOn(c, s, a);
    }
  }

  predicate OfWorker(a: Action) {
    !a.Cancel? && !a.Feed?
  }

  lemma OneWorkerMoves(c: Config, s: State, a: Action)
    requires Enabled(c, s, a) && OfWorker(a)
    ensures a.w < |s.workers| == |Apply(c, s, a).workers|
    ensures Apply(c, s, a).workers == s.workers[a.w := Apply(c, s, a).workers[a.w]]
  {
  }

  lemma LegalStep(c: Config, s: State, a: Action)
    requires LegalInv(c, s) && Enabled(c, s, a)
    ensures LegalInv(c, Apply(c, s, a))
  {
  }

  /** What a worker's step adds to the tokens of the report. */
  function Reports(s: State, a: Action): int {
    if a.Work? && a.w < |s.workers| && s.workers[a.w].Reporting? then s.workers[a.w].o.tokens else 0
  }

  lemma ReportGrows(c: Config, s: State, a: Action)
    requires Enabled(c, s, a)
    ensures SumTokens(Apply(c, s, a).report) == SumTokens(s.report) + Reports(s, a)
  {
    var s' := Apply(c, s, a);
    if a.Work? && s.workers[a.w].Reporting? {
      assert s'.report[..|s'.report| - 1] == s.report;
    } else {
      assert s'.report == s.report;
    }
  }

  /** What one worker's step moves between the counter, the workers and the report. */
  lemma CarriedStep(c: Config, s: State, a: Action)
    requires Enabled(c, s, a) && OfWorker(a)
    ensures var s' := Apply(c, s, a);
            s'.tokens - s.tokens == Carried(s'.workers[a.w]) - Carried(s.workers[a.w]) + Reports(s, a)
  {
  }

  lemma SumStep(c: Config, s: State, a: Action)
    requires SumInv(s) && Enabled(c, s, a)
    ensures SumInv(Apply(c, s, a))
  {
    if OfWorker(a) {
      OneWorkerMoves(c, s, a);
      InFlightUpdate(s.workers, a.w, Apply(c, s, a).workers[a.w]);
      CarriedStep(c, s, a);
    }
    ReportGrows(c, s, a);
  }

  /** A worker that adds joins those that have added; a report moves one of them. */
  lemma AddedMoves(c: Config, s: State, a: Action)
    requires Enabled(c, s, a) && OfWorker(a)
    ensures var s' := Apply(c, s, a);
            |s'.report| + (if Added(s'.workers[a.w]) then 1 else 0)
            == |s.report| + (if Added(s.workers[a.w]) then 1 else 0) + if Adds(s, a) then 1 else 0
  {
  }

  lemma AddedCount(c: Config, s: State, a: Action)
    requires Enabled(c, s, a)
    ensures var s' := Apply(c, s, a);
            |s'.report| + Count(s'.workers, Added) == |s.report| + Count(s.workers, Added) + if Adds(s, a) then 1 else 0
  {
    if OfWorker(a) {
      OneWorkerMoves(c, s, a);
      AddedMoves(c, s, a);
      CountUpdate(s.workers, a.w, Apply(c, s, a).workers[a.w], Added);
    }
  }

  lemma CapStep(c: Config, s: State, a: Action)
    requires LegalInv(c, s) && CapInv(c, s) && Enabled(c, s, a)
    ensures CapInv(c, Apply(c, s, a))
  {
    AddedTokens(c, s, a);
    AddedCount(c, s, a);
  }

  /** A worker's step moves one job along, or none. */
  lemma SentMove(c: Config, s: State, a: Action)
    requires ShapeInv(c, s) && Enabled(c, s, a) && OfWorker(a)
    ensures var s' := Apply(c, s, a);
            Sent(c, s'.feeder) - Sent(c, s.feeder)
            == |s'.report| - |s.report| + (if Holding(s'.workers[a.w]) then 1 else 0) - (if Holding(s.workers[a.w]) then 1 else 0)
  {
  }

  lemma SentStep(c: Config, s: State, a: Action)
    requires ShapeInv(c, s) && SentInv(c, s) && Enabled(c, s, a)
    ensures SentInv(c, Apply(c, s, a))
  {
    if OfWorker(a) {
      OneWorkerMoves(c, s, a);
      SentMove(c, s, a);
      CountUpdate(s.workers, a.w, Apply(c, s, a).workers[a.w], Holding);
    }
  }

  lemma TokenStep(c: Config, s: State, a: Action)
    requires ShapeInv(c, s) && TokenInv(c, s) && BudgetInv(c, s) && Enabled(c, s, a)
    ensures TokenInv(c, Apply(c, s, a))
  {
    LegalStep(c, s, a);
    SumStep(c, s, a);
    CapStep(c, s, a);
    SentStep(c, s, a);
    StopStep(c, s, a);
  }

  lemma StopStep(c: Config, s: State, a: Action)
    requires LegalInv(c, s) && BudgetInv(c, s) && Enabled(c, s, a)
    requires s.stop ==> OverBudget(c, s)
    ensures Apply(c, s, a).stop ==> OverBudget(c, Apply(c, s, a))
    ensures OverBudget(c, s) ==> OverBudget(c, Apply(c, s, a))
  {
  }

  predicate Adds(s: State, a: Action) {
    a.Work? && a.w < |s.workers| && s.workers[a.w].Adding?
  }

  lemma AddedTokens(c: Config, s: State, a: Action)
    requires LegalInv(c, s) && Enabled(c, s, a)
    ensures s.tokens <= Apply(c, s, a).tokens <= s.tokens + if Adds(s, a) then c.maxJobTokens else 0
    ensures !Adds(s, a) ==> Apply(c, s, a).tokens == s.tokens
  {
  }

  /** Over budget, a worker that was spent stays so, and one that adds becomes so. */
  lemma SpentMoves(c: Config, s: State, a: Action)
    requires BudgetInv(c, s) && Enabled(c, s, a) && OfWorker(a) && OverBudget(c, Apply(c, s, a))
    ensures var s' := Apply(c, s, a);
            && (s.stop ==> s'.stop)
            && (IsSpent(s'.stop, s.workers[a.w]) ==> IsSpent(s'.stop, s'.workers[a.w]))
            && (Adds(s, a) ==> !IsSpent(s'.stop, s.workers[a.w]) && IsSpent(s'.stop, s'.workers[a.w]))
  {
  }

  lemma SpentCount(c: Config, s: State, a: Action)
    requires BudgetInv(c, s) && Enabled(c, s, a) && OverBudget(c, Apply(c, s, a))
    ensures var s' := Apply(c, s, a);
            Count(s'.workers, Spent(s'.stop)) >= Count(s.workers, Spent(s.stop)) + if Adds(s, a) then 1 else 0
  {
    var s' := Apply(c, s, a);
    if OfWorker(a) {
      SpentMoves(c, s, a);
      OneWorkerMoves(c, s, a);
      CountGrows(s.workers, Spent(s.stop), Spent(s'.stop));
      CountUpdate(s.workers, a.w, s'.workers[a.w], Spent(s'.stop));
    }
  }

  lemma SpentStep(c: Config, s: State, a: Action)
    requires LegalInv(c, s) && BudgetInv(c, s) && Enabled(c, s, a)
    requires OverBudget(c, Apply(c, s, a))
    ensures var s' := Apply(c, s, a);
            s'.tokens <= c.maxTokens - 1 + Times(Count(s'.workers, Spent(s'.stop)), c.maxJobTokens)
  {
    var s' := Apply(c, s, a);
    AddedTokens(c, s, a);
    SpentCount(c, s, a);
    var n, n' := Count(s.workers, Spent(s.stop)), Count(s'.workers, Spent(s'.stop));
    if Adds(s, a) {
      TimesGrows(n + 1, n', c.maxJobTokens);
    } else {
      TimesGrows(n, n', c.maxJobTokens);
    }
  }

  lemma WillStopStep(c: Config, s: State, a: Action)
    requires BudgetInv(c, s) && Enabled(c, s, a)
    ensures var s' := Apply(c, s, a);
            OverBudget(c, s') && !s'.stop ==> exists w :: 0 <= w < |s'.workers| && WillStop(s'.workers[w])
  {
    var s' := Apply(c, s, a);
    if OverBudget(c, s') && !s'.stop {
      if OverBudget(c, s) {
        var x :| 0 <= x < |s.workers| && WillStop(s.workers[x]);
        assert WillStop(s'.workers[x]);
      } else {
        assert WillStop(s'.workers[a.w]);
      }
    }
  }

  lemma BudgetStep(c: Config, s: State, a: Action)
    requires ShapeInv(c, s) && TokenInv(c, s) && BudgetInv(c, s) && Enabled(c, s, a)
    ensures BudgetInv(c, Apply(c, s, a))
  {
    if OverBudget(c, Apply(c, s, a)) {
      SpentStep(c, s, a);
    }
    WillStopStep(c, s, a);
    StoppersStep(c, s, a);
  }

  /** Only a wave with a budget has workers at the load, and only one over it at the swap. */
  lemma StoppersStep(c: Config, s: State, a: Action)
    requires LegalInv(c, s) && BudgetInv(c, s) && Enabled(c, s, a)
    ensures var s' := Apply(c, s, a);
            forall w :: 0 <= w < |s'.workers| ==> (WillStop(s'.workers[w]) ==> c.maxTokens > 0) && (s'.workers[w].Swapping? ==> OverBudget(c, s'))
  {
  }

  lemma InvStep(c: Config, s: State, a: Action)
    requires Inv(c, s) && Enabled(c, s, a)
    ensures Inv(c, Apply(c, s, a))
  {
    ShapeStep(c, s, a);
    MutexStep(c, s, a);
    FailedStep(c, s, a);
    PlaceStep(c, s, a);
    TokenStep(c, s, a);
    BudgetStep(c, s, a);
  }

  lemma {:induction false} InvReachable(c: Config, acts: seq<Action>)
    requires Exec(c, acts).Some?
    ensures Inv(c, Exec(c, acts).value)
  {
    if acts == [] {
      InitHolds(c);
    } else {
      InvReachable(c, acts[..|acts| - 1]);
      InvStep(c, Exec(c, acts[..|acts| - 1]).value, acts[|acts| - 1]);
    }
  }

  // ---- What the invariants say ----

  /** Where a job can be. */
  datatype Place = Unsent | AtFeeder | AtWorker(w: nat) | InReport(i: nat) | DroppedBy(w: nat)

  predicate IsAt(c: Config, s: State, p: nat, place: Place) {
    match place
    case Unsent => p >= Sent(c, s.feeder) && !(Feeding(s.feeder) && p == s.feeder.next)
    case AtFeeder => Feeding(s.feeder) && p == s.feeder.next
    case AtWorker(w) => w < |s.workers| && Held(s.workers[w]) == Some(p) && !s.workers[w].Dropped?
    case InReport(i) => i < |s.report| && s.report[i].job == p
    case DroppedBy(w) => w < |s.workers| && s.workers[w] == Dropped(p)
  }

  lemma SomePlace(c: Config, s: State, p: nat)
    requires PlaceInv(c, s) && p < c.jobs
    ensures exists place :: IsAt(c, s, p, place)
  {
    if p >= Sent(c, s.feeder) {
      assert IsAt(c, s, p, if Feeding(s.feeder) && p == s.feeder.next then AtFeeder else Unsent);
    } else if HasHolder(s, p) {
      var w :| 0 <= w < |s.workers| && HeldBy(s, p, w);
      assert IsAt(c, s, p, if s.workers[w].Dropped? then DroppedBy(w) else AtWorker(w));
    } else {
      var i :| 0 <= i < |s.report| && s.report[i].job == p;
      assert IsAt(c, s, p, InReport(i));
    }
  }

  lemma OnlyPlace(c: Config, s: State, p: nat, x: Place, y: Place)
    requires PlaceInv(c, s) && IsAt(c, s, p, x) && IsAt(c, s, p, y)
    ensures x == y
  {
  }

  /** Conservation: in every reachable state every job is in exactly one place. */
  lemma ExactlyOnePlace(c: Config, acts: seq<Action>, p: nat)
    requires Exec(c, acts).Some? && p < c.jobs
    ensures exists place :: IsAt(c, Exec(c, acts).value, p, place)
    ensures forall x, y :: IsAt(c, Exec(c, acts).value, p, x) && IsAt(c, Exec(c, acts).value, p, y) ==> x == y
  {
    var s := Exec(c, acts).value;
    InvReachable(c, acts);
    SomePlace(c, s, p);
    forall x, y | IsAt(c, s, p, x) && IsAt(c, s, p, y) ensures x == y {
      OnlyPlace(c, s, p, x, y);
    }
  }

  /**
   * When a wave returns, the failed list is exactly the errored outcomes of the
   * report, in report order, and no job is in it twice.
   */
  lemma FailedAreErrored(c: Config, acts: seq<Action>)
    requires Exec(c, acts).Some? && Returns(Exec(c, acts).value)
    ensures var s := Exec(c, acts).value;
            && s.failed == Errored(s.report)
            && (forall i, k :: 0 <= i < k < |s.report| ==> s.report[i].job != s.report[k].job)
            && forall i :: 0 <= i < |s.report| ==> s.report[i].job < c.jobs
  {
    var s := Exec(c, acts).value;
    InvReachable(c, acts);
    assert forall w :: 0 <= w < |s.workers| ==> NoteOf(s.workers[w]).None?;
  }

  /** When a wave returns, the counter holds the tokens of the report. */
  lemma TokensAreReported(c: Config, acts: seq<Action>)
    requires Exec(c, acts).Some? && Returns(Exec(c, acts).value)
    ensures Exec(c, acts).value.tokens == SumTokens(Exec(c, acts).value.report)
  {
    var s := Exec(c, acts).value;
    InvReachable(c, acts);
    NothingInFlight(s.workers);
  }

  /**
   * The overshoot bound: in every reachable state of a wave with a budget, the
   * counter exceeds it by less than one job's tokens for each worker.
   */
  lemma OvershootBound(c: Config, acts: seq<Action>)
    requires Exec(c, acts).Some? && c.maxTokens > 0
    ensures Exec(c, acts).value.tokens <= c.maxTokens - 1 + c.parallel * c.maxJobTokens
  {
    var s := Exec(c, acts).value;
    InvReachable(c, acts);
    CountBound(s.workers, Spent(s.stop));
    TimesGrows(Count(s.workers, Spent(s.stop)), c.parallel, c.maxJobTokens);
    TimesIsProduct(c.parallel, c.maxJobTokens);
  }
}
