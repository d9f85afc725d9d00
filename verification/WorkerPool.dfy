// internal/benchmark/scheduler.go, runBatch: a feeder and a pool of workers that
// share a token counter, a stop flag and a locked report. One step per atomic
// operation, in any interleaving.
module WorkerPool {
  import opened Wrappers

  /** What one job brings back; a job that errors reports no tokens. */
  datatype Outcome = Outcome(tokens: int, errored: bool)

  /**
   * A wave: its number of jobs, the pool size, the token budget (none if not
   * positive), the most tokens a job reports, and whether the context can be
   * cancelled while it runs.
   */
  datatype Config = Config(jobs: nat, parallel: nat, maxTokens: int, maxJobTokens: nat, cancellable: bool)

  predicate Legal(c: Config, o: Outcome) {
    0 <= o.tokens <= c.maxJobTokens && (o.errored ==> o.tokens == 0)
  }

  datatype Worker =
    | Receiving
    | CheckingContext(job: nat)
    | CheckingStop(job: nat)
    | Running(job: nat)
    | Adding(job: nat, o: Outcome)
    | Loading(job: nat, o: Outcome)
    | Swapping(job: nat, o: Outcome)
    | Locking(job: nat, o: Outcome)
    | Reporting(job: nat, o: Outcome)
    | Noting(noted: nat, result: Outcome)
    | Unlocking
    | Dropped(job: nat)
    | Ended

  datatype Feeder =
    | AtContext(next: nat)
    | AtStop(next: nat)
    | AtBudget(next: nat)
    | Sleeping(next: nat)
    | Sending(next: nat)
    | Closing
    | Closed
    | Returned(next: nat)

  datatype Settled = Settled(job: nat, outcome: Outcome)

  datatype State = State(tokens: int, stop: bool, cancelled: bool, mu: Option<nat>,
                         report: seq<Settled>, failed: seq<nat>,
                         workers: seq<Worker>, feeder: Feeder)

  function FeedFrom(c: Config, j: nat): Feeder {
    if j < c.jobs then AtContext(j) else Closing
  }

  function Init(c: Config): State {
    State(0, false, false, None, [], [], seq(c.parallel, _ => Receiving), FeedFrom(c, 0))
  }

  datatype Action = Cancel | Feed | Send(w: nat) | HearClose(w: nat) | Work(w: nat) | FinishJob(w: nat, o: Outcome)

  predicate Enabled(c: Config, s: State, a: Action) {
    match a
    case Cancel => c.cancellable && !s.cancelled
    case Feed => !s.feeder.Sending? && !s.feeder.Closed? && !s.feeder.Returned?
    case Send(w) => s.feeder.Sending? && w < |s.workers| && s.workers[w].Receiving?
    case HearClose(w) => s.feeder.Closed? && w < |s.workers| && s.workers[w].Receiving?
    case FinishJob(w, o) => w < |s.workers| && s.workers[w].Running? && Legal(c, o)
    case Work(w) =>
      && w < |s.workers|
      && !s.workers[w].Receiving? && !s.workers[w].Running? && !s.workers[w].Dropped? && !s.workers[w].Ended?
      && (s.workers[w].Locking? ==> s.mu.None?)
  }

  predicate OverBudget(c: Config, s: State) {
    c.maxTokens > 0 && s.tokens >= c.maxTokens
  }

  function FeederStep(c: Config, s: State): Feeder {
    match s.feeder
    case AtContext(j) => if s.cancelled then Returned(j) else AtStop(j)
    case AtStop(j) => if s.stop then Returned(j) else AtBudget(j)
    case AtBudget(j) => if OverBudget(c, s) then Sleeping(j) else Sending(j)
    case Sleeping(j) => AtContext(j)
    case Closing => Closed
    case f => f
  }

  /** The step of a worker that neither meets the feeder nor runs its job. */
  function WorkerStep(c: Config, s: State, w: nat): State
    requires w < |s.workers|
  {
    match s.workers[w]
    case CheckingContext(j) => Goto(s, w, if s.cancelled then Dropped(j) else CheckingStop(j))
    case CheckingStop(j) => Goto(s, w, if s.stop then Dropped(j) else Running(j))
    case Adding(j, o) =>
      Goto(s.(tokens := s.tokens + o.tokens), w, if c.maxTokens > 0 then Loading(j, o) else Locking(j, o))
    case Loading(j, o) => Goto(s, w, if s.tokens >= c.maxTokens then Swapping(j, o) else Locking(j, o))
    case Swapping(j, o) => Goto(s.(stop := true), w, Locking(j, o))
    case Locking(j, o) => Goto(s.(mu := Some(w)), w, Reporting(j, o))
    case Reporting(j, o) => Goto(s.(report := s.report + [Settled(j, o)]), w, Noting(j, o))
    case Noting(j, o) => Goto(s.(failed := if o.errored then s.failed + [j] else s.failed), w, Unlocking)
    case Unlocking => Goto(s.(mu := None), w, Receiving)
    case _ => s
  }

  function Goto(s: State, w: nat, next: Worker): State
    requires w < |s.workers|
  {
    s.(workers := s.workers[w := next])
  }

  function Apply(c: Config, s: State, a: Action): State
    requires Enabled(c, s, a)
  {
    match a
    case Cancel => s.(cancelled := true)
    case Feed => s.(feeder := FeederStep(c, s))
    case Send(w) => Goto(s, w, CheckingContext(s.feeder.next)).(feeder := FeedFrom(c, s.feeder.next + 1))
    case HearClose(w) => Goto(s, w, Ended)
    case Work(w) => WorkerStep(c, s, w)
    case FinishJob(w, o) => Goto(s, w, Adding(s.workers[w].job, o))
  }

  /** The state an interleaving leads to, if every step of it can be taken. */
  function Exec(c: Config, acts: seq<Action>): Option<State> {
    if acts == [] then Some(Init(c))
    else
      match Exec(c, acts[..|acts| - 1])
      case Some(s) => if Enabled(c, s, acts[|acts| - 1]) then Some(Apply(c, s, acts[|acts| - 1])) else None
      case None => None
  }

  /** The wave can return: every worker has left and the feeder is done. */
  predicate Returns(s: State) {
    && (s.feeder.Closed? || s.feeder.Returned?)
    && forall w :: 0 <= w < |s.workers| ==> s.workers[w].Dropped? || s.workers[w].Ended?
  }

  // ---- Counting workers ----

  function Count(ws: seq<Worker>, p: Worker -> bool): nat {
    if ws == [] then 0 else (if p(ws[0]) then 1 else 0) + Count(ws[1..], p)
  }

  lemma {:induction false} CountUpdate(ws: seq<Worker>, w: nat, x: Worker, p: Worker -> bool)
    requires w < |ws|
    ensures Count(ws[w := x], p) == Count(ws, p) - (if p(ws[w]) then 1 else 0) + (if p(x) then 1 else 0)
  {
    if w == 0 {
      assert ws[0 := x][1..] == ws[1..];
    } else {
      assert ws[w := x][1..] == ws[1..][w - 1 := x];
      CountUpdate(ws[1..], w - 1, x, p);
    }
  }

  lemma {:induction false} CountBound(ws: seq<Worker>, p: Worker -> bool)
    ensures Count(ws, p) <= |ws|
    ensures (forall w :: 0 <= w < |ws| ==> p(ws[w])) ==> Count(ws, p) == |ws|
    ensures (forall w :: 0 <= w < |ws| ==> !p(ws[w])) ==> Count(ws, p) == 0
  {
    if ws != [] {
      CountBound(ws[1..], p);
    }
  }

  lemma {:induction false} CountGrows(ws: seq<Worker>, p: Worker -> bool, q: Worker -> bool)
    requires forall w :: 0 <= w < |ws| && p(ws[w]) ==> q(ws[w])
    ensures Count(ws, p) <= Count(ws, q)
  {
    if ws != [] {
      assert forall w :: 0 <= w < |ws[1..]| ==> ws[1..][w] == ws[w + 1];
      CountGrows(ws[1..], p, q);
    }
  }
}
