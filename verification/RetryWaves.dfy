// internal/benchmark/scheduler.go, Run: a first wave over all jobs, then retry
// waves over the jobs that errored.
module RetryWaves {
  import opened Wrappers
  import opened WorkerPool
  import opened WaveSafety
  import opened WaveOutcomes
  import Report
  import ReportLaws

  /** What a wave left behind when it returned: an interleaving of the worker pool. */
  datatype Wave = Wave(config: Config, acts: seq<Action>)

  /** The wave ran over n jobs and returned. */
  ghost predicate Ran(w: Wave, n: nat) {
    w.config.jobs == n && Exec(w.config, w.acts).Some? && Returns(Exec(w.config, w.acts).value)
  }

  /** The jobs a wave ran, named by their place in the first wave, and what it settled. */
  datatype Batch = Batch(jobs: seq<nat>, settled: seq<Settled>)

  /** The jobs a returned wave settled, under their own names. */
  function SettledBy(w: Wave, jobs: seq<nat>): seq<Settled>
    requires Ran(w, |jobs|)
  {
    FailedAreErrored(w.config, w.acts);
    var report := Exec(w.config, w.acts).value.report;
    seq(|report|, i requires 0 <= i < |report| => Settled(jobs[report[i].job], report[i].outcome))
  }

  /** The jobs runBatch returns as failed, under their own names. */
  function FailedBy(w: Wave, jobs: seq<nat>): seq<nat>
    requires Ran(w, |jobs|)
  {
    var failed := Exec(w.config, w.acts).value.failed;
    FailedInRange(w);
    seq(|failed|, i requires 0 <= i < |failed| => jobs[failed[i]])
  }

  lemma FailedInRange(w: Wave)
    requires Exec(w.config, w.acts).Some? && Returns(Exec(w.config, w.acts).value)
    ensures forall i :: 0 <= i < |Exec(w.config, w.acts).value.failed|
              ==> Exec(w.config, w.acts).value.failed[i] < w.config.jobs
  {
    FailedAreErrored(w.config, w.acts);
    var s := Exec(w.config, w.acts).value;
    forall i | 0 <= i < |s.failed| ensures s.failed[i] < w.config.jobs {
      ErroredFromReport(s.report, s.failed[i]);
    }
  }

  /** waves are what the attempts ran, up to the first attempt a dead context prevents. */
  ghost predicate CanRun(jobs: seq<nat>, waves: seq<Wave>)
    decreases waves
  {
    waves == [] || (Ran(waves[0], |jobs|) && CanRun(FailedBy(waves[0], jobs), waves[1..]))
  }

  function Batches(jobs: seq<nat>, left: int, waves: seq<Wave>): seq<Batch>
    requires CanRun(jobs, waves)
    decreases waves
  {
    if jobs == [] || left < 0 || waves == [] then []
    else [Batch(jobs, SettledBy(waves[0], jobs))] + Batches(FailedBy(waves[0], jobs), left - 1, waves[1..])
  }

  lemma BatchesUnfold(current: seq<nat>, left: int, waves: seq<Wave>, i: nat)
    requires i < |waves| && current != [] && left >= 0 && CanRun(current, waves[i..])
    ensures Ran(waves[i], |current|)
    ensures CanRun(FailedBy(waves[i], current), waves[i + 1..])
    ensures Batches(current, left, waves[i..])
         == [Batch(current, SettledBy(waves[i], current))]
            + Batches(FailedBy(waves[i], current), left - 1, waves[i + 1..])
  {
    assert waves[i..][0] == waves[i] && waves[i..][1..] == waves[i + 1..];
  }

  /** The loop of Run; the context is dead once the given waves are used up. */
  method Run(n: nat, retry: int, waves: seq<Wave>) returns (batches: seq<Batch>)
    requires CanRun(AllJobs(n), waves)
    ensures batches == Batches(AllJobs(n), retry, waves)
  {
    var current := AllJobs(n);
    batches := [];
    assert waves[0..] == waves;
    var attempt := 0;
    while |current| > 0 && attempt <= retry
      invariant 0 <= attempt <= |waves| && CanRun(current, waves[attempt..])
      invariant Batches(AllJobs(n), retry, waves) == batches + Batches(current, retry - attempt, waves[attempt..])
      decreases |waves| - attempt
    {
      if attempt == |waves| {
        break;
      }
      BatchesUnfold(current, retry - attempt, waves, attempt);
      RunStep(batches, Batch(current, SettledBy(waves[attempt], current)),
              Batches(FailedBy(waves[attempt], current), retry - attempt - 1, waves[attempt + 1..]));
      batches := batches + [Batch(current, SettledBy(waves[attempt], current))];
      current := FailedBy(waves[attempt], current);
      attempt := attempt + 1;
    }
    assert batches + [] == batches;
  }

  lemma RunStep(batches: seq<Batch>, b: Batch, rest: seq<Batch>)
    ensures batches + ([b] + rest) == batches + [b] + rest
  {
  }

  function AllJobs(n: nat): seq<nat> {
    seq(n, i => i)
  }

  ghost predicate NoRepeats(jobs: seq<nat>) {
    forall i, k :: 0 <= i < k < |jobs| ==> jobs[i] != jobs[k]
  }

  /** A job settled in a batch, with or without an error. */
  ghost predicate SettledIn(b: Batch, j: nat, errored: bool) {
    exists i :: 0 <= i < |b.settled| && b.settled[i].job == j && b.settled[i].outcome.errored == errored
  }

  /** How a batch settles its jobs: each at most once, and only its own. */
  ghost predicate BatchSound(b: Batch) {
    && NoRepeats(b.jobs)
    && (forall i, k :: 0 <= i < k < |b.settled| ==> b.settled[i].job != b.settled[k].job)
    && forall i :: 0 <= i < |b.settled| ==> b.settled[i].job in b.jobs
  }

  /** Naming jobs by their place in the first wave keeps what the wave's report says. */
  lemma {:induction false} ErroredRenamed(report: seq<Settled>, jobs: seq<nat>)
    requires forall i :: 0 <= i < |report| ==> report[i].job < |jobs|
    ensures forall i :: 0 <= i < |Errored(report)| ==> Errored(report)[i] < |jobs|
    ensures Errored(seq(|report|, i requires 0 <= i < |report| => Settled(jobs[report[i].job], report[i].outcome)))
         == seq(|Errored(report)|, i requires 0 <= i < |Errored(report)| && Errored(report)[i] < |jobs| => jobs[Errored(report)[i]])
  {
    if report != [] {
      var front := report[..|report| - 1];
      ErroredRenamed(front, jobs);
      var renamed := seq(|report|, i requires 0 <= i < |report| => Settled(jobs[report[i].job], report[i].outcome));
      assert renamed[..|renamed| - 1]
          == seq(|front|, i requires 0 <= i < |front| => Settled(jobs[front[i].job], front[i].outcome));
    }
  }

  lemma WaveBatch(w: Wave, jobs: seq<nat>)
    requires Ran(w, |jobs|) && NoRepeats(jobs)
    ensures BatchSound(Batch(jobs, SettledBy(w, jobs)))
    ensures FailedBy(w, jobs) == Errored(SettledBy(w, jobs))
    ensures NoRepeats(FailedBy(w, jobs))
  {
    FailedAreErrored(w.config, w.acts);
    var report := Exec(w.config, w.acts).value.report;
    ErroredRenamed(report, jobs);
    ErroredNoRepeats(SettledBy(w, jobs));
  }

  lemma {:induction false} ErroredNoRepeats(report: seq<Settled>)
    requires forall i, k :: 0 <= i < k < |report| ==> report[i].job != report[k].job
    ensures NoRepeats(Errored(report))
  {
    if report != [] {
      var front, last := report[..|report| - 1], report[|report| - 1];
      ErroredNoRepeats(front);
      ErroredFromReport(front, last.job);
    }
  }

  /**
   * Retry waves: at most Retry + 1 of them, each sound, and each after the first
   * over exactly the errored outcomes of the wave before it, in their order.
   */
  lemma {:induction false} RetriesAreErrored(jobs: seq<nat>, left: int, waves: seq<Wave>)
    requires CanRun(jobs, waves) && NoRepeats(jobs)
    ensures var bs := Batches(jobs, left, waves);
            && |bs| <= (if left < 0 then 0 else left + 1)
            && (bs != [] ==> bs[0].jobs == jobs)
            && (forall k :: 0 <= k < |bs| ==> BatchSound(bs[k]))
            && forall k :: 0 < k < |bs| ==> bs[k].jobs == Errored(bs[k - 1].settled)
    decreases waves
  {
    if !(jobs == [] || left < 0 || waves == []) {
      var next := FailedBy(waves[0], jobs);
      WaveBatch(waves[0], jobs);
      RetriesAreErrored(next, left - 1, waves[1..]);
      var bs, rest := Batches(jobs, left, waves), Batches(next, left - 1, waves[1..]);
      assert forall k :: 0 < k < |bs| ==> bs[k] == rest[k - 1];
    }
  }

  /** Batch k is what wave k settled. */
  lemma {:induction false} BatchIsWave(jobs: seq<nat>, left: int, waves: seq<Wave>, k: nat)
    requires CanRun(jobs, waves) && k < |Batches(jobs, left, waves)|
    ensures k < |waves|
    ensures var b := Batches(jobs, left, waves)[k]; Ran(waves[k], |b.jobs|) && b.settled == SettledBy(waves[k], b.jobs)
    decreases waves
  {
    if k > 0 {
      BatchIsWave(FailedBy(waves[0], jobs), left - 1, waves[1..], k - 1);
      assert waves[1..][k - 1] == waves[k];
    }
  }

  /** Waves go on until one leaves no error, Retry is used up, or the context is dead. */
  lemma {:induction false} WavesGoOn(jobs: seq<nat>, left: int, waves: seq<Wave>)
    requires CanRun(jobs, waves) && NoRepeats(jobs)
    ensures var bs := Batches(jobs, left, waves);
            if bs == [] then jobs == [] || left < 0 || waves == []
            else |bs| == left + 1 || |bs| == |waves| || Errored(bs[|bs| - 1].settled) == []
    decreases waves
  {
    if !(jobs == [] || left < 0 || waves == []) {
      WaveBatch(waves[0], jobs);
      WavesGoOn(FailedBy(waves[0], jobs), left - 1, waves[1..]);
    }
  }

  /** A wave settles a job with what the run of that job brought back, and settles no other way. */
  lemma SettledIffFinished(w: Wave, jobs: seq<nat>, j: nat, o: Outcome)
    requires Ran(w, |jobs|)
    ensures Settled(j, o) in SettledBy(w, jobs)
            <==> exists p :: 0 <= p < |jobs| && jobs[p] == j && Finished(w.config, w.acts, p, o)
  {
    var report := Exec(w.config, w.acts).value.report;
    FailedAreErrored(w.config, w.acts);
    if i :| 0 <= i < |report| && SettledBy(w, jobs)[i] == Settled(j, o) {
      ReportedWasFinished(w.config, w.acts, i);
      assert jobs[report[i].job] == j;
    }
    if p :| 0 <= p < |jobs| && jobs[p] == j && Finished(w.config, w.acts, p, o) {
      ReportIsWhatFinished(w.config, w.acts, p, o);
      var i :| 0 <= i < |report| && report[i] == Settled(p, o);
      assert SettledBy(w, jobs)[i] == Settled(j, o);
    }
  }

  /** A job runs again in the next wave exactly when its run in this one brought back an error. */
  lemma RerunIffBroughtError(n: nat, retry: int, waves: seq<Wave>, k: nat, j: nat)
    requires CanRun(AllJobs(n), waves) && k + 1 < |Batches(AllJobs(n), retry, waves)|
    ensures var bs := Batches(AllJobs(n), retry, waves);
            && k < |waves|
            && (j in bs[k + 1].jobs
                <==> exists p :: 0 <= p < |bs[k].jobs| && bs[k].jobs[p] == j && BroughtError(waves[k].config, waves[k].acts, p))
  {
    var bs := Batches(AllJobs(n), retry, waves);
    BatchIsWave(AllJobs(n), retry, waves, k);
    RerunIffErrored(n, retry, waves, k, j);
    ErroredInBatch(waves[k], bs[k].jobs, j);
  }

  lemma ErroredInBatch(w: Wave, jobs: seq<nat>, j: nat)
    requires Ran(w, |jobs|)
    ensures SettledIn(Batch(jobs, SettledBy(w, jobs)), j, true)
            <==> exists p :: 0 <= p < |jobs| && jobs[p] == j && BroughtError(w.config, w.acts, p)
  {
    var ss := SettledBy(w, jobs);
    if i :| 0 <= i < |ss| && ss[i].job == j && ss[i].outcome.errored {
      assert ss[i] == Settled(j, ss[i].outcome);
      SettledIffFinished(w, jobs, j, ss[i].outcome);
      var p :| 0 <= p < |jobs| && jobs[p] == j && Finished(w.config, w.acts, p, ss[i].outcome);
      assert BroughtError(w.config, w.acts, p);
    }
    if p :| 0 <= p < |jobs| && jobs[p] == j && BroughtError(w.config, w.acts, p) {
      var o :| Finished(w.config, w.acts, p, o) && o.errored;
      SettledIffFinished(w, jobs, j, o);
    }
  }

  /** How often a job was settled over all waves. */
  function AttemptsOf(bs: seq<Batch>, j: nat): nat {
    if bs == [] then 0 else SettledCount(bs[0].settled, j) + AttemptsOf(bs[1..], j)
  }

  function SettledCount(ss: seq<Settled>, j: nat): nat {
    if ss == [] then 0 else (if ss[0].job == j then 1 else 0) + SettledCount(ss[1..], j)
  }

  lemma {:induction false} SettledOnce(ss: seq<Settled>, j: nat)
    requires forall i, k :: 0 <= i < k < |ss| ==> ss[i].job != ss[k].job
    ensures SettledCount(ss, j) <= 1
    ensures (forall i :: 0 <= i < |ss| ==> ss[i].job != j) ==> SettledCount(ss, j) == 0
  {
    if ss != [] {
      assert forall i :: 0 <= i < |ss[1..]| ==> ss[1..][i] == ss[i + 1];
      SettledOnce(ss[1..], j);
    }
  }

  lemma {:induction false} AttemptsBounded(bs: seq<Batch>, j: nat)
    requires forall k :: 0 <= k < |bs| ==> BatchSound(bs[k])
    ensures AttemptsOf(bs, j) <= |bs|
  {
    if bs != [] {
      SettledOnce(bs[0].settled, j);
      AttemptsBounded(bs[1..], j);
    }
  }

  /** No job has more than Retry + 1 settled attempts. */
  lemma AtMostRetryPlusOne(n: nat, retry: nat, waves: seq<Wave>, j: nat)
    requires CanRun(AllJobs(n), waves)
    ensures AttemptsOf(Batches(AllJobs(n), retry, waves), j) <= retry + 1
  {
    RetriesAreErrored(AllJobs(n), retry, waves);
    AttemptsBounded(Batches(AllJobs(n), retry, waves), j);
  }

  /** A job runs again in the next wave exactly when it settled with an error in this one. */
  lemma RerunIffErrored(n: nat, retry: int, waves: seq<Wave>, k: nat, j: nat)
    requires CanRun(AllJobs(n), waves) && k + 1 < |Batches(AllJobs(n), retry, waves)|
    ensures var bs := Batches(AllJobs(n), retry, waves);
            j in bs[k + 1].jobs <==> SettledIn(bs[k], j, true)
  {
    RetriesAreErrored(AllJobs(n), retry, waves);
    ErroredFromReport(Batches(AllJobs(n), retry, waves)[k].settled, j);
  }

  /** A job that a wave settled without an error, or did not settle, is in no later wave. */
  lemma {:induction false} DoneIsDone(n: nat, retry: int, waves: seq<Wave>, k: nat, m: nat, j: nat)
    requires CanRun(AllJobs(n), waves) && k < m < |Batches(AllJobs(n), retry, waves)|
    requires !SettledIn(Batches(AllJobs(n), retry, waves)[k], j, true)
    ensures j !in Batches(AllJobs(n), retry, waves)[m].jobs
    decreases m
  {
    var bs := Batches(AllJobs(n), retry, waves);
    RerunIffErrored(n, retry, waves, m - 1, j);
    if k < m - 1 {
      DoneIsDone(n, retry, waves, k, m - 1, j);
      RetriesAreErrored(AllJobs(n), retry, waves);
      assert BatchSound(bs[m - 1]);
    }
  }

  /** A job settled without an error in a wave did not also settle with one there. */
  lemma SettledOneWay(n: nat, retry: int, waves: seq<Wave>, k: nat, j: nat)
    requires CanRun(AllJobs(n), waves) && k < |Batches(AllJobs(n), retry, waves)|
    requires SettledIn(Batches(AllJobs(n), retry, waves)[k], j, false)
    ensures !SettledIn(Batches(AllJobs(n), retry, waves)[k], j, true)
  {
    RetriesAreErrored(AllJobs(n), retry, waves);
    OneVerdict(Batches(AllJobs(n), retry, waves)[k], j);
  }

  lemma OneVerdict(b: Batch, j: nat)
    requires BatchSound(b) && SettledIn(b, j, false)
    ensures !SettledIn(b, j, true)
  {
    var i :| 0 <= i < |b.settled| && b.settled[i].job == j && !b.settled[i].outcome.errored;
  }

  /** All settled attempts, in the order the report received them. */
  function AllSettled(bs: seq<Batch>): seq<Settled> {
    if bs == [] then [] else bs[0].settled + AllSettled(bs[1..])
  }

  lemma {:induction false} AttemptsAreSettled(bs: seq<Batch>, j: nat)
    ensures AttemptsOf(bs, j) == SettledCount(AllSettled(bs), j)
  {
    if bs != [] {
      AttemptsAreSettled(bs[1..], j);
      SettledCountConcat(bs[0].settled, AllSettled(bs[1..]), j);
    }
  }

  lemma {:induction false} SettledCountConcat(a: seq<Settled>, b: seq<Settled>, j: nat)
    ensures SettledCount(a + b, j) == SettledCount(a, j) + SettledCount(b, j)
  {
    if a == [] {
      assert a + b == b;
    } else {
      assert (a + b)[1..] == a[1..] + b;
      SettledCountConcat(a[1..], b, j);
    }
  }

  /** The settled attempts of all jobs below n. */
  function AttemptsBelow(bs: seq<Batch>, n: nat): nat {
    if n == 0 then 0 else AttemptsBelow(bs, n - 1) + AttemptsOf(bs, n - 1)
  }

  /** The errored settlements of all waves. */
  function ErroredAttempts(bs: seq<Batch>): nat {
    if bs == [] then 0 else |Errored(bs[0].settled)| + ErroredAttempts(bs[1..])
  }

  function CountsBelow(ss: seq<Settled>, n: nat): nat {
    if n == 0 then 0 else CountsBelow(ss, n - 1) + SettledCount(ss, n - 1)
  }

  lemma {:induction false} CountsBelowStep(ss: seq<Settled>, n: nat)
    requires ss != []
    ensures CountsBelow(ss, n) == CountsBelow(ss[1..], n) + if ss[0].job < n then 1 else 0
  {
    if n > 0 {
      CountsBelowStep(ss, n - 1);
    }
  }

  lemma {:induction false} CountsBelowNone(n: nat)
    ensures CountsBelow([], n) == 0
  {
    if n > 0 {
      CountsBelowNone(n - 1);
    }
  }

  lemma {:induction false} AllCounted(ss: seq<Settled>, n: nat)
    requires forall i :: 0 <= i < |ss| ==> ss[i].job < n
    ensures CountsBelow(ss, n) == |ss|
  {
    if ss == [] {
      CountsBelowNone(n);
    } else {
      CountsBelowStep(ss, n);
      assert forall i :: 0 <= i < |ss[1..]| ==> ss[1..][i] == ss[i + 1];
      AllCounted(ss[1..], n);
    }
  }

  lemma {:induction false} AttemptsAreCounts(bs: seq<Batch>, n: nat)
    ensures AttemptsBelow(bs, n) == CountsBelow(AllSettled(bs), n)
  {
    if n > 0 {
      AttemptsAreCounts(bs, n - 1);
      AttemptsAreSettled(bs, n - 1);
    }
  }

  /** Retry waves bring in no job the first wave did not have. */
  lemma {:induction false} JobsInRange(n: nat, retry: int, waves: seq<Wave>, k: nat)
    requires CanRun(AllJobs(n), waves) && k < |Batches(AllJobs(n), retry, waves)|
    ensures forall i :: 0 <= i < |Batches(AllJobs(n), retry, waves)[k].settled|
              ==> Batches(AllJobs(n), retry, waves)[k].settled[i].job < n
  {
    var bs := Batches(AllJobs(n), retry, waves);
    RetriesAreErrored(AllJobs(n), retry, waves);
    assert BatchSound(bs[k]);
    if k > 0 {
      JobsInRange(n, retry, waves, k - 1);
      forall j | j in bs[k].jobs ensures j < n {
        ErroredFromReport(bs[k - 1].settled, j);
      }
    }
  }

  lemma {:induction false} AllInRange(bs: seq<Batch>, n: nat)
    requires forall k, i :: 0 <= k < |bs| && 0 <= i < |bs[k].settled| ==> bs[k].settled[i].job < n
    ensures forall i :: 0 <= i < |AllSettled(bs)| ==> AllSettled(bs)[i].job < n
  {
    if bs != [] {
      assert forall k :: 0 <= k < |bs[1..]| ==> bs[1..][k] == bs[k + 1];
      AllInRange(bs[1..], n);
    }
  }

  lemma {:induction false} AttemptsBelowBound(n: nat, retry: nat, waves: seq<Wave>, m: nat)
    requires CanRun(AllJobs(n), waves)
    ensures AttemptsBelow(Batches(AllJobs(n), retry, waves), m) <= m * (retry + 1)
  {
    if m > 0 {
      AttemptsBelowBound(n, retry, waves, m - 1);
      AtMostRetryPlusOne(n, retry, waves, m - 1);
      assert m * (retry + 1) == (m - 1) * (retry + 1) + (retry + 1);
    }
  }

  /** The outcomes a run hands to the report, with whatever details the jobs brought back. */
  function Outcomes(ss: seq<Settled>, detail: Settled -> Report.Outcome): seq<Report.Outcome> {
    seq(|ss|, i requires 0 <= i < |ss| => detail(ss[i]))
  }

  lemma {:induction false} ErroredConcat(a: seq<Settled>, b: seq<Settled>)
    ensures Errored(a + b) == Errored(a) + Errored(b)
  {
    if b == [] {
      assert a + b == a;
    } else {
      assert (a + b)[..|a + b| - 1] == a + b[..|b| - 1];
      ErroredConcat(a, b[..|b| - 1]);
    }
  }

  lemma {:induction false} ErroredAttemptsAreSettled(bs: seq<Batch>)
    ensures ErroredAttempts(bs) == |Errored(AllSettled(bs))|
  {
    if bs != [] {
      ErroredAttemptsAreSettled(bs[1..]);
      ErroredConcat(bs[0].settled, AllSettled(bs[1..]));
    }
  }

  lemma {:induction false} ErrorsKept(ss: seq<Settled>, detail: Settled -> Report.Outcome)
    requires forall x :: detail(x).error.Some? <==> x.outcome.errored
    ensures ReportLaws.WithError(Outcomes(ss, detail)) == |Errored(ss)|
  {
    if ss != [] {
      var n := |ss| - 1;
      assert Outcomes(ss, detail)[..n] == Outcomes(ss[..n], detail);
      ErrorsKept(ss[..n], detail);
    }
  }

  /**
   * What the report of a whole run shows: its totals add up to the settled
   * attempts of the jobs, no more than Retry + 1 for each, and its errored
   * counters to the errored settlements of the waves.
   */
  lemma ReportCountsAttempts(n: nat, retry: nat, waves: seq<Wave>, detail: Settled -> Report.Outcome)
    requires CanRun(AllJobs(n), waves)
    requires forall x :: detail(x).error.Some? <==> x.outcome.errored
    ensures var bs := Batches(AllJobs(n), retry, waves);
            var report := Report.AddAll(Outcomes(AllSettled(bs), detail));
            && ReportLaws.TotalSum(report) == AttemptsBelow(bs, n) <= n * (retry + 1)
            && ReportLaws.ErroredSum(report) == ErroredAttempts(bs)
  {
    var bs := Batches(AllJobs(n), retry, waves);
    var ss := AllSettled(bs);
    forall k, i | 0 <= k < |bs| && 0 <= i < |bs[k].settled| ensures bs[k].settled[i].job < n {
      JobsInRange(n, retry, waves, k);
    }
    AllInRange(bs, n);
    AllCounted(ss, n);
    AttemptsAreCounts(bs, n);
    AttemptsBelowBound(n, retry, waves, n);
    ReportLaws.TotalsAddUp(Outcomes(ss, detail));
    ReportLaws.ErrorsAddUp(Outcomes(ss, detail));
    ErrorsKept(ss, detail);
    ErroredAttemptsAreSettled(bs);
  }
}
