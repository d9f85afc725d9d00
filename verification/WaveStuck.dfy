// Exactly which waves can get stuck for ever.
module WaveStuck {
  import opened Wrappers
  import opened WorkerPool
  import opened WaveSafety
  import opened WaveProgress

  ghost predicate NeverWedges(c: Config) {
    forall acts :: Exec(c, acts).Some? ==> !Wedged(c, Exec(c, acts).value)
  }

  /**
   * The wave has no job, or its context cannot be cancelled and all jobs but
   * one cannot use up the budget, if there is one.
   */
  predicate AlwaysReturns(c: Config) {
    c.jobs == 0
    || (!c.cancellable && (c.maxTokens <= 0 || (c.jobs - 1) * c.maxJobTokens < c.maxTokens))
  }

  /** Before the last job is handed over, such a wave is not stopped. */
  lemma NotStoppedEarly(c: Config, acts: seq<Action>)
    requires Exec(c, acts).Some? && AlwaysReturns(c)
    requires Sent(c, Exec(c, acts).value.feeder) < c.jobs
    ensures !Exec(c, acts).value.stop && !Exec(c, acts).value.cancelled
  {
    InvReachable(c, acts);
    BudgetSpared(c, Exec(c, acts).value);
  }

  lemma BudgetSpared(c: Config, s: State)
    requires ShapeInv(c, s) && TokenInv(c, s) && AlwaysReturns(c) && Sent(c, s.feeder) < c.jobs
    ensures !s.stop && !s.cancelled
  {
    CountGrows(s.workers, Added, Holding);
    TimesGrows(|s.report| + Count(s.workers, Added), Sent(c, s.feeder), c.maxJobTokens);
    TimesGrows(Sent(c, s.feeder), c.jobs - 1, c.maxJobTokens);
    TimesIsProduct(c.jobs - 1, c.maxJobTokens);
  }

  lemma AlwaysReturnsSuffices(c: Config)
    requires c.parallel > 0 && AlwaysReturns(c)
    ensures NeverWedges(c)
  {
    forall acts | Exec(c, acts).Some? ensures !Wedged(c, Exec(c, acts).value) {
      var s := Exec(c, acts).value;
      InvReachable(c, acts);
      WedgedShape(c, acts);
      if Sent(c, s.feeder) < c.jobs {
        NotStoppedEarly(c, acts);
      }
    }
  }

  // ---- Building a stuck interleaving ----

  ghost predicate Reachable(c: Config, s: State) {
    exists acts :: Exec(c, acts) == Some(s)
  }

  lemma StepReachable(c: Config, s: State, a: Action)
    requires Reachable(c, s) && Enabled(c, s, a)
    ensures Reachable(c, Apply(c, s, a))
  {
    var acts :| Exec(c, acts) == Some(s);
    assert (acts + [a])[..|acts + [a]| - 1] == acts;
    assert Exec(c, acts + [a]) == Some(Apply(c, s, a));
  }

  lemma InitReachable(c: Config)
    ensures Reachable(c, Init(c))
  {
    assert Exec(c, []) == Some(Init(c));
  }

  /** Every job so far brought back as many tokens as a job can. */
  function FullReport(c: Config, k: nat): seq<Settled> {
    if k == 0 then [] else FullReport(c, k - 1) + [Settled(k - 1, Outcome(c.maxJobTokens, false))]
  }

  /** k jobs are settled, one after another, by worker 0; the others never got one. */
  function Serial(c: Config, tokens: int, stop: bool, mu: Option<nat>, k: nat, w: Worker, f: Feeder): State
    requires c.parallel > 0
  {
    State(tokens, stop, false, mu, FullReport(c, k), [], seq(c.parallel, _ => Receiving)[0 := w], f)
  }

  lemma SerialMoves(c: Config, w: Worker, w': Worker)
    requires c.parallel > 0
    ensures seq(c.parallel, _ => Receiving)[0 := w][0 := w'] == seq(c.parallel, _ => Receiving)[0 := w']
    ensures seq(c.parallel, _ => Receiving)[0 := Receiving] == seq(c.parallel, _ => Receiving)
  {
  }

  /** The feeder offers job k. */
  lemma JobOffered(c: Config, k: nat, t: int)
    requires c.parallel > 0 && k < c.jobs && (c.maxTokens > 0 ==> t < c.maxTokens)
    requires Reachable(c, Serial(c, t, false, None, k, Receiving, AtContext(k)))
    ensures Reachable(c, Serial(c, t, false, None, k, Receiving, Sending(k)))
  {
    StepReachable(c, Serial(c, t, false, None, k, Receiving, AtContext(k)), Feed);
    StepReachable(c, Serial(c, t, false, None, k, Receiving, AtStop(k)), Feed);
    StepReachable(c, Serial(c, t, false, None, k, Receiving, AtBudget(k)), Feed);
  }

  /** Job k is handed to worker 0 and runs. */
  lemma JobStarts(c: Config, k: nat, t: int)
    requires c.parallel > 0 && k < c.jobs
    requires Reachable(c, Serial(c, t, false, None, k, Receiving, Sending(k)))
    ensures Reachable(c, Serial(c, t, false, None, k, Running(k), FeedFrom(c, k + 1)))
  {
    SerialMoves(c, Receiving, CheckingContext(k));
    StepReachable(c, Serial(c, t, false, None, k, Receiving, Sending(k)), Send(0));
    SerialMoves(c, CheckingContext(k), CheckingStop(k));
    StepReachable(c, Serial(c, t, false, None, k, CheckingContext(k), FeedFrom(c, k + 1)), Work(0));
    SerialMoves(c, CheckingStop(k), Running(k));
    StepReachable(c, Serial(c, t, false, None, k, CheckingStop(k), FeedFrom(c, k + 1)), Work(0));
  }

  /** Job k ends and its tokens are counted. */
  lemma JobAdds(c: Config, k: nat)
    requires c.parallel > 0 && c.maxTokens > 0
    requires Reachable(c, Serial(c, Times(k, c.maxJobTokens), false, None, k, Running(k), FeedFrom(c, k + 1)))
    ensures Reachable(c, Serial(c, Times(k + 1, c.maxJobTokens), false, None, k,
                                Loading(k, Outcome(c.maxJobTokens, false)), FeedFrom(c, k + 1)))
  {
    var t, f := Times(k, c.maxJobTokens), FeedFrom(c, k + 1);
    var o := Outcome(c.maxJobTokens, false);
    SerialMoves(c, Running(k), Adding(k, o));
    StepReachable(c, Serial(c, t, false, None, k, Running(k), f), FinishJob(0, o));
    AddedIsReachable(c, k, t, o, f);
  }

  lemma AddedIsReachable(c: Config, k: nat, t: int, o: Outcome, f: Feeder)
    requires c.parallel > 0 && c.maxTokens > 0 && Reachable(c, Serial(c, t, false, None, k, Adding(k, o), f))
    ensures Reachable(c, Serial(c, t + o.tokens, false, None, k, Loading(k, o), f))
  {
    SerialMoves(c, Adding(k, o), Loading(k, o));
    StepReachable(c, Serial(c, t, false, None, k, Adding(k, o), f), Work(0));
  }

  /** Job k ends, and the stop flag is set if it used up the budget. */
  lemma JobEnds(c: Config, k: nat)
    requires c.parallel > 0 && c.maxTokens > 0
    requires Reachable(c, Serial(c, Times(k, c.maxJobTokens), false, None, k, Running(k), FeedFrom(c, k + 1)))
    ensures var t := Times(k + 1, c.maxJobTokens);
            Reachable(c, Serial(c, t, t >= c.maxTokens, None, k, Locking(k, Outcome(c.maxJobTokens, false)), FeedFrom(c, k + 1)))
  {
    JobAdds(c, k);
    JobChecks(c, k, Times(k + 1, c.maxJobTokens), Outcome(c.maxJobTokens, false), FeedFrom(c, k + 1));
  }

  lemma JobChecks(c: Config, k: nat, t: int, o: Outcome, f: Feeder)
    requires c.parallel > 0 && c.maxTokens > 0 && Reachable(c, Serial(c, t, false, None, k, Loading(k, o), f))
    ensures Reachable(c, Serial(c, t, t >= c.maxTokens, None, k, Locking(k, o), f))
  {
    if t >= c.maxTokens {
      SerialMoves(c, Loading(k, o), Swapping(k, o));
      StepReachable(c, Serial(c, t, false, None, k, Loading(k, o), f), Work(0));
      SerialMoves(c, Swapping(k, o), Locking(k, o));
      StepReachable(c, Serial(c, t, false, None, k, Swapping(k, o), f), Work(0));
    } else {
      SerialMoves(c, Loading(k, o), Locking(k, o));
      StepReachable(c, Serial(c, t, false, None, k, Loading(k, o), f), Work(0));
    }
  }

  /** Worker 0 settles job k and waits for another. */
  lemma JobSettles(c: Config, k: nat, t: int, stop: bool, f: Feeder)
    requires c.parallel > 0
    requires Reachable(c, Serial(c, t, stop, None, k, Locking(k, Outcome(c.maxJobTokens, false)), f))
    ensures Reachable(c, Serial(c, t, stop, None, k + 1, Receiving, f))
  {
    var o := Outcome(c.maxJobTokens, false);
    SerialMoves(c, Locking(k, o), Reporting(k, o));
    StepReachable(c, Serial(c, t, stop, None, k, Locking(k, o), f), Work(0));
    SerialMoves(c, Reporting(k, o), Noting(k, o));
    StepReachable(c, Serial(c, t, stop, Some(0), k, Reporting(k, o), f), Work(0));
    SerialMoves(c, Noting(k, o), Unlocking);
    StepReachable(c, Serial(c, t, stop, Some(0), k + 1, Noting(k, o), f), Work(0));
    SerialMoves(c, Unlocking, Receiving);
    StepReachable(c, Serial(c, t, stop, Some(0), k + 1, Unlocking, f), Work(0));
  }

  /** As long as the budget lasts, k full jobs can be run one after another. */
  lemma {:induction false} SerialReachable(c: Config, k: nat)
    requires c.parallel > 0 && c.maxTokens > 0 && k <= c.jobs && c.jobs > 0
    requires k > 0 ==> Times(k - 1, c.maxJobTokens) < c.maxTokens
    ensures var t := Times(k, c.maxJobTokens);
            Reachable(c, Serial(c, t, t >= c.maxTokens, None, k, Receiving, FeedFrom(c, k)))
  {
    if k == 0 {
      InitReachable(c);
      SerialMoves(c, Receiving, Receiving);
    } else {
      TimesGrows(if k > 1 then k - 2 else 0, k - 1, c.maxJobTokens);
      SerialReachable(c, k - 1);
      JobOffered(c, k - 1, Times(k - 1, c.maxJobTokens));
      JobStarts(c, k - 1, Times(k - 1, c.maxJobTokens));
      JobEnds(c, k - 1);
      var t := Times(k, c.maxJobTokens);
      JobSettles(c, k - 1, t, t >= c.maxTokens, FeedFrom(c, k));
    }
  }

  /** The k-th job, and none before it, uses up the budget when each reports the most. */
  predicate RunsOutAt(c: Config, k: nat) {
    k > 0 && Times(k, c.maxJobTokens) >= c.maxTokens > Times(k - 1, c.maxJobTokens)
  }

  /** The least number of full jobs that uses up the budget. */
  lemma {:induction false} BudgetRunsOut(c: Config, n: nat)
    requires c.maxTokens > 0 && Times(n, c.maxJobTokens) >= c.maxTokens
    ensures exists k: nat :: k <= n && RunsOutAt(c, k)
  {
    if Times(n - 1, c.maxJobTokens) < c.maxTokens {
      assert RunsOutAt(c, n);
    } else {
      BudgetRunsOut(c, n - 1);
    }
  }

  lemma AtLeastOneWorker(c: Config, acts: seq<Action>)
    requires c.parallel > 0 && Exec(c, acts).Some?
    ensures |Exec(c, acts).value.workers| > 0
  {
    InvReachable(c, acts);
  }

  /** A feeder that left early, with everyone waiting for a job. */
  lemma FeederGoneIsWedged(c: Config, s: State)
    requires c.parallel > 0 && Reachable(c, s) && s.feeder.Returned?
    requires forall w :: 0 <= w < |s.workers| ==> s.workers[w].Receiving?
    ensures Wedged(c, s)
  {
    var acts :| Exec(c, acts) == Some(s);
    AtLeastOneWorker(c, acts);
    assert s.workers[0].Receiving?;
    ShapeWedges(c, s);
  }

  /** A cancellation at the start leaves every worker waiting. */
  lemma CancelWedges(c: Config)
    requires c.parallel > 0 && c.jobs > 0 && c.cancellable
    ensures exists s :: Reachable(c, s) && Wedged(c, s)
  {
    var s0 := Init(c);
    InitReachable(c);
    StepReachable(c, s0, Cancel);
    var s1 := s0.(cancelled := true);
    StepReachable(c, s1, Feed);
    var s := s1.(feeder := Returned(0));
    FeederGoneIsWedged(c, s);
  }

  /** A budget used up before the last job leaves every worker waiting. */
  lemma BudgetWedges(c: Config)
    requires c.parallel > 0 && c.jobs > 0 && c.maxTokens > 0
    requires (c.jobs - 1) * c.maxJobTokens >= c.maxTokens
    ensures exists s :: Reachable(c, s) && Wedged(c, s)
  {
    TimesIsProduct(c.jobs - 1, c.maxJobTokens);
    BudgetRunsOut(c, c.jobs - 1);
    var k: nat :| k <= c.jobs - 1 && RunsOutAt(c, k);
    var t := Times(k, c.maxJobTokens);
    SerialReachable(c, k);
    StepReachable(c, Serial(c, t, true, None, k, Receiving, AtContext(k)), Feed);
    StepReachable(c, Serial(c, t, true, None, k, Receiving, AtStop(k)), Feed);
    var s := Serial(c, t, true, None, k, Receiving, Returned(k));
    FeederGoneIsWedged(c, s);
  }

  /**
   * No interleaving gets stuck exactly when the wave has no job, or when its
   * context cannot be cancelled and all jobs but one stay under the budget.
   */
  lemma NeverWedgesIff(c: Config)
    requires c.parallel > 0
    ensures NeverWedges(c) <==> AlwaysReturns(c)
  {
    if AlwaysReturns(c) {
      AlwaysReturnsSuffices(c);
    } else {
      if c.cancellable {
        CancelWedges(c);
      } else {
        BudgetWedges(c);
      }
      var s :| Reachable(c, s) && Wedged(c, s);
      var acts :| Exec(c, acts) == Some(s);
      assert Wedged(c, Exec(c, acts).value);
    }
  }

  // ---- Waves that can be relied on ----

  lemma BudgetLasts(c: Config, s: State)
    requires ShapeInv(c, s) && TokenInv(c, s) && AlwaysReturns(c)
    requires |s.report| + Count(s.workers, Added) < c.jobs
    ensures !OverBudget(c, s)
  {
    TimesGrows(|s.report| + Count(s.workers, Added), c.jobs - 1, c.maxJobTokens);
    TimesIsProduct(c.jobs - 1, c.maxJobTokens);
  }

  lemma {:induction false} NeverSleeps(c: Config, acts: seq<Action>)
    requires Exec(c, acts).Some? && AlwaysReturns(c)
    ensures Sleeps(c, acts) == 0
  {
    if acts != [] {
      var front := acts[..|acts| - 1];
      var s := Exec(c, front).value;
      NeverSleeps(c, front);
      InvReachable(c, front);
      if FallsAsleep(c, s, acts[|acts| - 1]) {
        CountGrows(s.workers, Added, Holding);
        BudgetLasts(c, s);
      }
    }
  }

  lemma {:induction false} CountHas(ws: seq<Worker>, p: Worker -> bool, w: nat)
    requires w < |ws| && p(ws[w])
    ensures Count(ws, p) > 0
  {
    if w > 0 {
      CountHas(ws[1..], p, w - 1);
    }
  }

  /** Once the wave has returned, no worker holds a job it dropped. */
  lemma NothingDropped(c: Config, s: State, w: nat)
    requires ShapeInv(c, s) && TokenInv(c, s) && AlwaysReturns(c) && Returns(s)
    requires w < |s.workers|
    ensures !s.workers[w].Dropped?
  {
    if s.workers[w].Dropped? {
      CountHas(s.workers, Holding, w);
      CountBound(s.workers, Added);
      BudgetLasts(c, s);
    }
  }

  /** Every job has its outcome in the report, once. */
  ghost predicate AllSettled(c: Config, s: State) {
    |s.report| == c.jobs && forall p :: 0 <= p < c.jobs ==> HasReport(s, p)
  }

  lemma QuietSettles(c: Config, acts: seq<Action>)
    requires Exec(c, acts).Some? && c.parallel > 0 && AlwaysReturns(c)
    requires Quiet(c, Exec(c, acts).value)
    ensures Returns(Exec(c, acts).value) && AllSettled(c, Exec(c, acts).value)
  {
    var s := Exec(c, acts).value;
    AlwaysReturnsSuffices(c);
    assert !Wedged(c, s);
    InvReachable(c, acts);
    if s.feeder.Returned? {
      NotStoppedEarly(c, acts);
    }
    EndedSettles(c, s);
  }

  lemma EndedSettles(c: Config, s: State)
    requires ShapeInv(c, s) && TokenInv(c, s) && PlaceInv(c, s) && AlwaysReturns(c)
    requires Returns(s) && s.feeder.Closed?
    ensures AllSettled(c, s)
  {
    forall w | 0 <= w < |s.workers| ensures s.workers[w].Ended? {
      NothingDropped(c, s, w);
    }
    CountBound(s.workers, Holding);
    forall p | 0 <= p < c.jobs ensures HasReport(s, p) {
      assert !HasHolder(s, p);
    }
  }

  /** No interleaving takes more steps than the bound, and one that cannot go on has settled every job. */
  ghost predicate Settles(c: Config) {
    forall acts :: Exec(c, acts).Some? ==>
      && |acts| <= StepBound(c)
      && (Quiet(c, Exec(c, acts).value) ==> Returns(Exec(c, acts).value) && AllSettled(c, Exec(c, acts).value))
  }

  /**
   * The waves that can be relied on to end with every job settled, after a bounded
   * number of steps in any interleaving, are exactly those that never get stuck.
   */
  lemma SettlesIff(c: Config)
    requires c.parallel > 0
    ensures Settles(c) <==> AlwaysReturns(c)
  {
    if AlwaysReturns(c) {
      forall acts | Exec(c, acts).Some?
        ensures |acts| <= StepBound(c)
        ensures Quiet(c, Exec(c, acts).value) ==> Returns(Exec(c, acts).value) && AllSettled(c, Exec(c, acts).value)
      {
        NeverSleeps(c, acts);
        FewSteps(c, acts);
        if Quiet(c, Exec(c, acts).value) {
          QuietSettles(c, acts);
        }
      }
    }
    NeverWedgesIff(c);
    if Settles(c) {
      forall acts | Exec(c, acts).Some? ensures !Wedged(c, Exec(c, acts).value) {
      }
    }
  }
}
