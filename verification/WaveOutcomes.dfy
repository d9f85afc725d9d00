// What a wave settles, told by its actions: the outcomes its jobs brought back,
// and what still happens once it is stopped, cancelled or over budget.
module WaveOutcomes {
  import opened Wrappers
  import opened WorkerPool
  import opened WaveSafety

  // ---- Reported outcomes are the ones jobs brought back ----

  /** At step n worker w, running job j, brought back o. */
  ghost predicate FinishedAt(c: Config, acts: seq<Action>, n: nat, w: nat, j: nat, o: Outcome) {
    && n < |acts| && acts[n] == FinishJob(w, o)
    && Exec(c, acts[..n]).Some?
    && var s := Exec(c, acts[..n]).value;
       w < |s.workers| && s.workers[w] == Running(j)
  }

  /** Some run of job j in this interleaving brought back o. */
  ghost predicate Finished(c: Config, acts: seq<Action>, j: nat, o: Outcome) {
    exists n, w :: FinishedAt(c, acts, n, w, j, o)
  }

  /** What a worker is taking to the report. */
  function LoadOf(w: Worker): Option<Settled> {
    match w
    case Adding(j, o) => Some(Settled(j, o))
    case Loading(j, o) => Some(Settled(j, o))
    case Swapping(j, o) => Some(Settled(j, o))
    case Locking(j, o) => Some(Settled(j, o))
    case Reporting(j, o) => Some(Settled(j, o))
    case _ => None
  }

  ghost predicate OnItsWay(s: State, x: Settled) {
    exists w :: 0 <= w < |s.workers| && LoadOf(s.workers[w]) == Some(x)
  }

  /** x is on its way to the report or in it. */
  ghost predicate Kept(s: State, x: Settled) {
    OnItsWay(s, x) || x in s.report
  }

  /** The job the step finishes, with what it brought back. */
  function FinishOf(s: State, a: Action): Option<Settled> {
    if a.FinishJob? && a.w < |s.workers| && s.workers[a.w].Running? then Some(Settled(s.workers[a.w].job, a.o)) else None
  }

  lemma LoadComes(c: Config, s: State, a: Action, w: nat)
    requires Enabled(c, s, a) && w < |s.workers| && LoadOf(Apply(c, s, a).workers[w]).Some?
    ensures LoadOf(Apply(c, s, a).workers[w]) == LoadOf(s.workers[w]) || LoadOf(Apply(c, s, a).workers[w]) == FinishOf(s, a)
  {
  }

  lemma LoadGoes(c: Config, s: State, a: Action, w: nat)
    requires Enabled(c, s, a) && w < |s.workers| && LoadOf(s.workers[w]).Some?
    ensures LoadOf(Apply(c, s, a).workers[w]) == LoadOf(s.workers[w]) || LoadOf(s.workers[w]).value in Apply(c, s, a).report
  {
  }

  lemma ReportMoves(c: Config, s: State, a: Action, x: Settled)
    requires Enabled(c, s, a)
    ensures x in s.report ==> x in Apply(c, s, a).report
    ensures x in Apply(c, s, a).report ==> Kept(s, x)
  {
    if a.Work? && s.workers[a.w].Reporting? {
      assert LoadOf(s.workers[a.w]) == Some(Settled(s.workers[a.w].job, s.workers[a.w].o));
    }
  }

  /** One step keeps exactly what was kept before and what it finishes itself. */
  lemma KeptStep(c: Config, s: State, a: Action, x: Settled)
    requires Enabled(c, s, a)
    ensures Kept(Apply(c, s, a), x) <==> Kept(s, x) || FinishOf(s, a) == Some(x)
  {
    var s' := Apply(c, s, a);
    ReportMoves(c, s, a, x);
    if w :| 0 <= w < |s'.workers| && LoadOf(s'.workers[w]) == Some(x) {
      LoadComes(c, s, a, w);
    }
    if w :| 0 <= w < |s.workers| && LoadOf(s.workers[w]) == Some(x) {
      LoadGoes(c, s, a, w);
    }
    if FinishOf(s, a) == Some(x) {
      assert LoadOf(s'.workers[a.w]) == Some(x);
    }
  }

  lemma SameStart(acts: seq<Action>, a: Action, n: nat)
    requires n <= |acts|
    ensures (acts + [a])[..n] == acts[..n] && (n < |acts| ==> (acts + [a])[n] == acts[n])
  {
  }

  lemma FinishedAtGrows(c: Config, acts: seq<Action>, a: Action, n: nat, w: nat, j: nat, o: Outcome)
    requires n < |acts|
    ensures FinishedAt(c, acts + [a], n, w, j, o) <==> FinishedAt(c, acts, n, w, j, o)
  {
    SameStart(acts, a, n);
  }

  lemma FinishedLast(c: Config, acts: seq<Action>, a: Action, w: nat, j: nat, o: Outcome)
    requires Exec(c, acts).Some?
    ensures FinishedAt(c, acts + [a], |acts|, w, j, o)
            <==> a == FinishJob(w, o) && FinishOf(Exec(c, acts).value, a) == Some(Settled(j, o))
  {
    SameStart(acts, a, |acts|);
    assert acts[..|acts|] == acts;
  }

  lemma FinishedGrows(c: Config, acts: seq<Action>, a: Action, j: nat, o: Outcome)
    requires Exec(c, acts).Some?
    ensures Finished(c, acts + [a], j, o) <==> Finished(c, acts, j, o) || FinishOf(Exec(c, acts).value, a) == Some(Settled(j, o))
  {
    if n: nat, w: nat :| FinishedAt(c, acts, n, w, j, o) {
      FinishedAtGrows(c, acts, a, n, w, j, o);
    }
    if FinishOf(Exec(c, acts).value, a) == Some(Settled(j, o)) {
      FinishedLast(c, acts, a, a.w, j, o);
    }
    if n: nat, w: nat :| FinishedAt(c, acts + [a], n, w, j, o) {
      if n < |acts| {
        FinishedAtGrows(c, acts, a, n, w, j, o);
      } else {
        FinishedLast(c, acts, a, w, j, o);
      }
    }
  }

  /** In every reachable state, what is reported or on its way there is exactly what the jobs brought back. */
  lemma {:induction false} KeptIffFinished(c: Config, acts: seq<Action>, j: nat, o: Outcome)
    requires Exec(c, acts).Some?
    ensures Kept(Exec(c, acts).value, Settled(j, o)) <==> Finished(c, acts, j, o)
  {
    if acts != [] {
      var front, a := acts[..|acts| - 1], acts[|acts| - 1];
      assert acts == front + [a];
      KeptIffFinished(c, front, j, o);
      KeptStep(c, Exec(c, front).value, a, Settled(j, o));
      FinishedGrows(c, front, a, j, o);
    }
  }

  /** Every outcome in the report was brought back by a worker that was running its job. */
  lemma ReportedWasFinished(c: Config, acts: seq<Action>, i: nat)
    requires Exec(c, acts).Some? && i < |Exec(c, acts).value.report|
    ensures var x := Exec(c, acts).value.report[i]; Finished(c, acts, x.job, x.outcome)
  {
    var x := Exec(c, acts).value.report[i];
    assert x == Settled(x.job, x.outcome);
    KeptIffFinished(c, acts, x.job, x.outcome);
  }

  /** The report of a returned wave holds what its jobs brought back: nothing else, and nothing is lost. */
  lemma ReportIsWhatFinished(c: Config, acts: seq<Action>, j: nat, o: Outcome)
    requires Exec(c, acts).Some? && Returns(Exec(c, acts).value)
    ensures Settled(j, o) in Exec(c, acts).value.report <==> Finished(c, acts, j, o)
  {
    KeptIffFinished(c, acts, j, o);
  }

  lemma {:induction false} ErroredFromReport(report: seq<Settled>, j: nat)
    ensures j in Errored(report) <==> exists i :: 0 <= i < |report| && report[i].job == j && report[i].outcome.errored
  {
    if report != [] {
      var front, last := report[..|report| - 1], report[|report| - 1];
      ErroredFromReport(front, j);
      assert last.job == j && last.outcome.errored ==> report[|report| - 1].job == j;
    }
  }

  /** Some run of job j brought back an error. */
  ghost predicate BroughtError(c: Config, acts: seq<Action>, j: nat) {
    exists o :: Finished(c, acts, j, o) && o.errored
  }

  /** A job is on a returned wave's failed list exactly when it brought back an error. */
  lemma FailedIffBroughtError(c: Config, acts: seq<Action>, j: nat)
    requires Exec(c, acts).Some? && Returns(Exec(c, acts).value)
    ensures j in Exec(c, acts).value.failed <==> BroughtError(c, acts, j)
  {
    var s := Exec(c, acts).value;
    FailedAreErrored(c, acts);
    ErroredFromReport(s.report, j);
    if i :| 0 <= i < |s.report| && s.report[i].job == j && s.report[i].outcome.errored {
      ReportedWasFinished(c, acts, i);
    }
    if o :| Finished(c, acts, j, o) && o.errored {
      ReportIsWhatFinished(c, acts, j, o);
    }
  }

  // ---- Stopping and cancelling ----

  /** The job of a worker that found the wave running on: past the check of the stop flag, and for early ones of the context. */
  predicate Past(w: Worker, j: nat, early: bool) {
    || w == Running(j) || (LoadOf(w).Some? && LoadOf(w).value.job == j)
    || (early && w == CheckingStop(j))
  }

  ghost predicate PastCheck(s: State, j: nat, early: bool) {
    exists w :: 0 <= w < |s.workers| && Past(s.workers[w], j, early)
  }

  ghost predicate Reported(s: State, j: nat) {
    exists i :: 0 <= i < |s.report| && s.report[i].job == j
  }

  /** Job j was past its check, or is settled. */
  ghost predicate Committed(s: State, j: nat, early: bool) {
    PastCheck(s, j, early) || Reported(s, j)
  }

  lemma PastMoves(c: Config, s: State, a: Action, w: nat, j: nat, early: bool)
    requires Enabled(c, s, a) && w < |s.workers| && (if early then s.cancelled else s.stop)
    requires Past(Apply(c, s, a).workers[w], j, early)
    ensures Past(s.workers[w], j, early)
  {
  }

  lemma ReportedMoves(c: Config, s: State, a: Action, j: nat, early: bool)
    requires Enabled(c, s, a) && Reported(Apply(c, s, a), j)
    ensures Committed(s, j, early)
  {
    var i :| 0 <= i < |Apply(c, s, a).report| && Apply(c, s, a).report[i].job == j;
    if i == |s.report| {
      assert Past(s.workers[a.w], j, early);
    } else {
      assert s.report[i].job == j;
    }
  }

  lemma CommittedStep(c: Config, s: State, a: Action, j: nat, early: bool)
    requires Enabled(c, s, a) && (if early then s.cancelled else s.stop)
    requires Committed(Apply(c, s, a), j, early)
    ensures Committed(s, j, early)
  {
    var s' := Apply(c, s, a);
    if w :| 0 <= w < |s'.workers| && Past(s'.workers[w], j, early) {
      PastMoves(c, s, a, w, j, early);
    } else {
      ReportedMoves(c, s, a, j, early);
    }
  }

  lemma FlagsStay(c: Config, s: State, a: Action)
    requires Enabled(c, s, a)
    ensures s.stop ==> Apply(c, s, a).stop
    ensures s.cancelled ==> Apply(c, s, a).cancelled
  {
  }

  /** The interleaving before goes on with more. */
  ghost predicate GoesOn(c: Config, before: seq<Action>, more: seq<Action>) {
    Exec(c, before).Some? && Exec(c, before + more).Some?
  }

  lemma OneLess(c: Config, before: seq<Action>, more: seq<Action>)
    requires GoesOn(c, before, more) && more != []
    ensures var less, a := more[..|more| - 1], more[|more| - 1];
            && GoesOn(c, before, less) && Enabled(c, Exec(c, before + less).value, a)
            && Exec(c, before + more).value == Apply(c, Exec(c, before + less).value, a)
  {
    var all := before + more;
    assert all[..|all| - 1] == before + more[..|more| - 1];
  }

  lemma {:induction false} CommittedBefore(c: Config, before: seq<Action>, more: seq<Action>, j: nat, early: bool)
    requires GoesOn(c, before, more) && var s := Exec(c, before).value; if early then s.cancelled else s.stop
    ensures var t := Exec(c, before + more).value;
            && (if early then t.cancelled else t.stop)
            && (Committed(t, j, early) ==> Committed(Exec(c, before).value, j, early))
  {
    if more == [] {
      assert before + more == before;
    } else {
      OneLess(c, before, more);
      var less, a := more[..|more| - 1], more[|more| - 1];
      CommittedBefore(c, before, less, j, early);
      FlagsStay(c, Exec(c, before + less).value, a);
      if Committed(Exec(c, before + more).value, j, early) {
        CommittedStep(c, Exec(c, before + less).value, a, j, early);
      }
    }
  }

  /**
   * Once the stop flag is set no job is started that had not passed its check of
   * it, and once the wave is cancelled none that had not passed its check of the
   * context: whatever is running or settled later was past that check, or settled.
   */
  lemma NothingStartsAfter(c: Config, before: seq<Action>, more: seq<Action>, j: nat)
    requires GoesOn(c, before, more)
    ensures var s, t := Exec(c, before).value, Exec(c, before + more).value;
            && (s.stop && Committed(t, j, false) ==> Committed(s, j, false))
            && (s.cancelled && Committed(t, j, true) ==> Committed(s, j, true))
  {
    if Exec(c, before).value.stop {
      CommittedBefore(c, before, more, j, false);
    }
    if Exec(c, before).value.cancelled {
      CommittedBefore(c, before, more, j, true);
    }
  }

  // ---- Handing over ----

  /** Why a feeder gives up or waits. */
  datatype Halt = ByCancel | ByStop | ByBudget

  predicate Halted(c: Config, s: State, h: Halt) {
    match h
    case ByCancel => s.cancelled
    case ByStop => s.stop
    case ByBudget => OverBudget(c, s)
  }

  /** The feeder has passed its check for h and will hand over its next job whatever becomes of it. */
  predicate PastGate(f: Feeder, h: Halt) {
    || f.Sending?
    || (f.AtBudget? && !h.ByBudget?)
    || (f.AtStop? && h.ByCancel?)
  }

  /** The jobs handed over, with the one that is past the gate. */
  function Due(c: Config, s: State, h: Halt): nat {
    Sent(c, s.feeder) + if PastGate(s.feeder, h) then 1 else 0
  }

  lemma DueStep(c: Config, s: State, a: Action, h: Halt)
    requires ShapeInv(c, s) && Enabled(c, s, a) && Halted(c, s, h)
    ensures Due(c, Apply(c, s, a), h) <= Due(c, s, h)
  {
  }

  lemma HaltStays(c: Config, s: State, a: Action, h: Halt)
    requires LegalInv(c, s) && Enabled(c, s, a) && Halted(c, s, h)
    ensures Halted(c, Apply(c, s, a), h)
  {
    AddedTokens(c, s, a);
    FlagsStay(c, s, a);
  }

  /**
   * Once a wave is cancelled, stopped or over its budget the feeder hands over no
   * job but the one whose check was behind it.
   */
  lemma {:induction false} AtMostOneMoreHandedOver(c: Config, before: seq<Action>, more: seq<Action>, h: Halt)
    requires GoesOn(c, before, more) && Halted(c, Exec(c, before).value, h)
    ensures var s, t := Exec(c, before).value, Exec(c, before + more).value;
            && Halted(c, t, h)
            && Sent(c, t.feeder) <= Due(c, t, h) <= Sent(c, s.feeder) + if PastGate(s.feeder, h) then 1 else 0
  {
    if more == [] {
      assert before + more == before;
    } else {
      OneLess(c, before, more);
      var less, a := more[..|more| - 1], more[|more| - 1];
      AtMostOneMoreHandedOver(c, before, less, h);
      InvReachable(c, before + less);
      DueStep(c, Exec(c, before + less).value, a, h);
      HaltStays(c, Exec(c, before + less).value, a, h);
    }
  }
}
