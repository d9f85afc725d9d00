// When a wave ends: a bound on every interleaving, the states in which nothing
// more can happen, and exactly which waves can get stuck.
module WaveProgress {
  import opened Wrappers
  import opened WorkerPool
  import opened WaveSafety

  // ---- Every interleaving is bounded ----

  function WorkerRank(w: Worker): nat {
    match w
    case CheckingContext(_) => 11
    case CheckingStop(_) => 10
    case Running(_) => 9
    case Adding(_, _) => 8
    case Loading(_, _) => 7
    case Swapping(_, _) => 6
    case Locking(_, _) => 5
    case Reporting(_, _) => 4
    case Noting(_, _) => 3
    case Unlocking => 2
    case Receiving => 1
    case Dropped(_) => 0
    case Ended => 0
  }

  function PoolRank(ws: seq<Worker>): nat {
    if ws == [] then 0 else WorkerRank(ws[0]) + PoolRank(ws[1..])
  }

  function FeederRank(c: Config, f: Feeder): int {
    match f
    case Sleeping(j) => 16 * (c.jobs - j) + 4
    case AtContext(j) => 16 * (c.jobs - j) + 3
    case AtStop(j) => 16 * (c.jobs - j) + 2
    case AtBudget(j) => 16 * (c.jobs - j) + 1
    case Sending(j) => 16 * (c.jobs - j)
    case Closing => 1
    case Closed => 0
    case Returned(_) => 0
  }

  /** How much is left to do. */
  function Rank(c: Config, s: State): int {
    FeederRank(c, s.feeder) + PoolRank(s.workers) + if s.cancelled then 0 else 1
  }

  lemma {:induction false} PoolRankUpdate(ws: seq<Worker>, w: nat, x: Worker)
    requires w < |ws|
    ensures PoolRank(ws[w := x]) == PoolRank(ws) - WorkerRank(ws[w]) + WorkerRank(x)
  {
    if w == 0 {
      assert ws[0 := x][1..] == ws[1..];
    } else {
      assert ws[w := x][1..] == ws[1..][w - 1 := x];
      PoolRankUpdate(ws[1..], w - 1, x);
    }
  }

  /** The feeder found the budget used up and goes to sleep. */
  predicate FallsAsleep(c: Config, s: State, a: Action) {
    a.Feed? && s.feeder.AtBudget? && OverBudget(c, s)
  }

  lemma WorkerRankDrops(c: Config, s: State, a: Action)
    requires Enabled(c, s, a) && OfWorker(a) && !a.Send?
    ensures WorkerRank(Apply(c, s, a).workers[a.w]) < WorkerRank(s.workers[a.w])
    ensures Apply(c, s, a).feeder == s.feeder && Apply(c, s, a).cancelled == s.cancelled
  {
  }

  lemma SendRankDrops(c: Config, s: State, a: Action)
    requires ShapeInv(c, s) && Enabled(c, s, a) && a.Send?
    ensures WorkerRank(Apply(c, s, a).workers[a.w]) == WorkerRank(s.workers[a.w]) + 10
    ensures FeederRank(c, Apply(c, s, a).feeder) <= FeederRank(c, s.feeder) - 13
    ensures Apply(c, s, a).cancelled == s.cancelled
  {
  }

  lemma FeedRankDrops(c: Config, s: State)
    requires ShapeInv(c, s) && Enabled(c, s, Feed)
    ensures FallsAsleep(c, s, Feed) ==> FeederRank(c, FeederStep(c, s)) == FeederRank(c, s.feeder) + 3
    ensures !FallsAsleep(c, s, Feed) ==> FeederRank(c, FeederStep(c, s)) < FeederRank(c, s.feeder)
  {
  }

  lemma RankStep(c: Config, s: State, a: Action)
    requires ShapeInv(c, s) && Enabled(c, s, a)
    ensures FallsAsleep(c, s, a) ==> Rank(c, Apply(c, s, a)) == Rank(c, s) + 3
    ensures !FallsAsleep(c, s, a) ==> Rank(c, Apply(c, s, a)) < Rank(c, s)
  {
    if OfWorker(a) {
      OneWorkerMoves(c, s, a);
      PoolRankUpdate(s.workers, a.w, Apply(c, s, a).workers[a.w]);
      if a.Send? {
        SendRankDrops(c, s, a);
      } else {
        WorkerRankDrops(c, s, a);
      }
    } else if a.Feed? {
      FeedRankDrops(c, s);
    }
  }

  /** How often the feeder fell asleep along an interleaving. */
  function Sleeps(c: Config, acts: seq<Action>): nat {
    if acts == [] then 0
    else
      var front := acts[..|acts| - 1];
      Sleeps(c, front)
      + if Exec(c, front).Some? && FallsAsleep(c, Exec(c, front).value, acts[|acts| - 1]) then 1 else 0
  }

  /**
   * No interleaving runs for ever, other than by the feeder waiting for the
   * budget: its length is bounded by the number of jobs and workers and by how
   * often the feeder fell asleep.
   */
  lemma {:induction false} BoundedInterleaving(c: Config, acts: seq<Action>)
    requires Exec(c, acts).Some?
    ensures |acts| + Rank(c, Exec(c, acts).value) <= Rank(c, Init(c)) + 4 * Sleeps(c, acts)
  {
    if acts != [] {
      var front := acts[..|acts| - 1];
      BoundedInterleaving(c, front);
      InvReachable(c, front);
      RankStep(c, Exec(c, front).value, acts[|acts| - 1]);
    }
  }

  lemma {:induction false} IdlePoolRank(ws: seq<Worker>)
    requires forall w :: 0 <= w < |ws| ==> ws[w].Receiving?
    ensures PoolRank(ws) == |ws|
  {
    if ws != [] {
      assert forall w :: 0 <= w < |ws[1..]| ==> ws[1..][w] == ws[w + 1];
      IdlePoolRank(ws[1..]);
    }
  }

  /** The most steps an interleaving takes while the feeder does not sleep. */
  function StepBound(c: Config): nat {
    16 * c.jobs + c.parallel + 4
  }

  lemma FewSteps(c: Config, acts: seq<Action>)
    requires Exec(c, acts).Some? && Sleeps(c, acts) == 0
    ensures |acts| <= StepBound(c)
  {
    BoundedInterleaving(c, acts);
    InvReachable(c, acts);
    IdlePoolRank(Init(c).workers);
    assert Rank(c, Exec(c, acts).value) >= 0 by {
      var f := Exec(c, acts).value.feeder;
      assert Feeding(f) || f.Returned? ==> f.next < c.jobs;
    }
  }

  /**
   * Without a budget a wave takes at most 16 steps for each job, one for each
   * worker, and four more, whatever the interleaving.
   */
  lemma {:induction false} NoBudgetNoSleep(c: Config, acts: seq<Action>)
    requires Exec(c, acts).Some? && c.maxTokens <= 0
    ensures Sleeps(c, acts) == 0 && |acts| <= StepBound(c)
  {
    if acts != [] {
      NoBudgetNoSleep(c, acts[..|acts| - 1]);
    }
    FewSteps(c, acts);
  }

  /** While the feeder finds the budget used up and no one has stopped the wave, a worker is about to. */
  lemma SleepMeansStopIsComing(c: Config, acts: seq<Action>)
    requires Exec(c, acts).Some?
    requires FallsAsleep(c, Exec(c, acts).value, Feed) && !Exec(c, acts).value.stop
    ensures exists w :: 0 <= w < |Exec(c, acts).value.workers| && WillStop(Exec(c, acts).value.workers[w])
                        && Enabled(c, Exec(c, acts).value, Work(w))
  {
    InvReachable(c, acts);
    var s := Exec(c, acts).value;
    var w :| 0 <= w < |s.workers| && WillStop(s.workers[w]);
    assert Enabled(c, s, Work(w));
  }

  // ---- States in which nothing more happens ----

  /** Nothing can happen any more, except that the context is cancelled. */
  ghost predicate Quiet(c: Config, s: State) {
    forall a :: Enabled(c, s, a) ==> a.Cancel?
  }

  lemma SectionMoves(c: Config, s: State, w: nat)
    requires w < |s.workers| && InSection(s.workers[w])
    ensures Enabled(c, s, Work(w))
  {
  }

  lemma EnabledAlike(c: Config, s: State, t: State, a: Action)
    requires t.(cancelled := false) == s.(cancelled := false) && !a.Cancel?
    ensures Enabled(c, s, a) == Enabled(c, t, a)
  {
  }

  /** Every worker of a quiet wave waits for a job or has left. */
  lemma QuietWorkers(c: Config, s: State)
    requires MutexInv(s) && ShapeInv(c, s) && Quiet(c, s)
    ensures forall w :: 0 <= w < |s.workers|
              ==> s.workers[w].Receiving? || s.workers[w].Dropped? || s.workers[w].Ended?
  {
    forall w | 0 <= w < |s.workers|
      ensures s.workers[w].Receiving? || s.workers[w].Dropped? || s.workers[w].Ended?
    {
      assert !Enabled(c, s, Work(w));
      assert !Enabled(c, s, FinishJob(w, Outcome(0, false)));
      if s.workers[w].Locking? {
        SectionMoves(c, s, s.mu.value);
        assert false;
      }
    }
  }

  /** A wave that is quiet without being able to return never returns. */
  ghost predicate Wedged(c: Config, s: State) {
    Quiet(c, s) && !Returns(s)
  }

  /** What follows a state along an interleaving that goes on from it. */
  function ExecFrom(c: Config, s: State, acts: seq<Action>): Option<State> {
    if acts == [] then Some(s)
    else
      match ExecFrom(c, s, acts[..|acts| - 1])
      case Some(t) => if Enabled(c, t, acts[|acts| - 1]) then Some(Apply(c, t, acts[|acts| - 1])) else None
      case None => None
  }

  /** A wedged wave stays as it is, whatever follows, except that it may be cancelled. */
  lemma {:induction false} WedgedForever(c: Config, before: seq<Action>, after: seq<Action>)
    requires Exec(c, before).Some? && Wedged(c, Exec(c, before).value)
    requires ExecFrom(c, Exec(c, before).value, after).Some?
    ensures var t := ExecFrom(c, Exec(c, before).value, after).value;
            !Returns(t) && t.(cancelled := false) == Exec(c, before).value.(cancelled := false)
  {
    var s := Exec(c, before).value;
    if after != [] {
      var front := after[..|after| - 1];
      WedgedForever(c, before, front);
      var t, a := ExecFrom(c, s, front).value, after[|after| - 1];
      if !a.Cancel? {
        EnabledAlike(c, s, t, a);
        assert false;
      }
    }
  }

  /** The feeder has left early, and of the workers still there each waits for a job. */
  ghost predicate NeverClosed(s: State) {
    && s.feeder.Returned?
    && (exists w :: 0 <= w < |s.workers| && s.workers[w].Receiving?)
    && (forall w :: 0 <= w < |s.workers| ==> s.workers[w].Receiving? || s.workers[w].Dropped?)
  }

  /** The feeder has a job to send, and every worker has left. */
  ghost predicate NobodyReceives(s: State) {
    s.feeder.Sending? && forall w :: 0 <= w < |s.workers| ==> s.workers[w].Dropped?
  }

  lemma ShapeOfWedged(c: Config, s: State)
    requires ShapeInv(c, s) && MutexInv(s) && Wedged(c, s)
    ensures NeverClosed(s) || NobodyReceives(s)
  {
    QuietWorkers(c, s);
    assert !Enabled(c, s, Feed);
    if s.feeder.Sending? {
      forall w | 0 <= w < |s.workers| ensures s.workers[w].Dropped? {
        assert !Enabled(c, s, Send(w));
      }
    } else if s.feeder.Closed? {
      forall w | 0 <= w < |s.workers| ensures s.workers[w].Dropped? || s.workers[w].Ended? {
        assert !Enabled(c, s, HearClose(w));
      }
    }
  }

  lemma ShapeWedges(c: Config, s: State)
    requires NeverClosed(s) || NobodyReceives(s)
    ensures Wedged(c, s)
  {
  }

  /**
   * The two ways to be stuck: the feeder left early, so that the channel is never
   * closed and workers wait on it; or the workers left early, so that the feeder
   * waits to send.
   */
  lemma WedgedShape(c: Config, acts: seq<Action>)
    requires Exec(c, acts).Some? && c.parallel > 0
    ensures var s := Exec(c, acts).value;
            Wedged(c, s) <==> NeverClosed(s) || NobodyReceives(s)
  {
    InvReachable(c, acts);
    var s := Exec(c, acts).value;
    if Wedged(c, s) {
      ShapeOfWedged(c, s);
    } else if NeverClosed(s) || NobodyReceives(s) {
      ShapeWedges(c, s);
    }
  }

  /**
   * A quiet wave that was neither stopped nor cancelled has returned with every
   * job settled exactly once.
   */
  lemma QuietMeansAllSettled(c: Config, acts: seq<Action>)
    requires Exec(c, acts).Some? && c.parallel > 0
    requires Quiet(c, Exec(c, acts).value)
    requires !Exec(c, acts).value.stop && !Exec(c, acts).value.cancelled
    ensures var s := Exec(c, acts).value;
            && Returns(s)
            && |s.report| == c.jobs
            && forall p :: 0 <= p < c.jobs ==> HasReport(s, p)
  {
    var s := Exec(c, acts).value;
    InvReachable(c, acts);
    QuietWorkers(c, s);
    assert !Enabled(c, s, Feed);
    assert s.workers[0].Receiving? ==> !Enabled(c, s, Send(0)) && !Enabled(c, s, HearClose(0));
    assert s.feeder.Closed?;
    forall w | 0 <= w < |s.workers| ensures s.workers[w].Ended? {
      assert !Enabled(c, s, HearClose(w));
    }
    CountBound(s.workers, Holding);
    forall p | 0 <= p < c.jobs ensures HasReport(s, p) {
      assert !HasHolder(s, p);
    }
  }
}
