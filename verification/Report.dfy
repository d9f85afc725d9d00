// internal/benchmark/report.go: folding job outcomes into per-variant results,
// and grouping a variant's runs by task.
module Report {
  import opened Wrappers

  datatype Status = Running | Passed | Failed | Errored | Cancelled

  datatype Metrics = Metrics(inputTokens: int, outputTokens: int, modelCalls: int, toolCalls: int,
                             durationMS: int, costUSD: real,
                             verificationPassed: bool, workspaceChanged: bool)

  datatype Job = Job(variant: string, taskID: string, repeat: int)

  datatype Outcome = Outcome(job: Option<Job>, runID: string, status: Status, metrics: Metrics, error: Option<string>)

  datatype RunSummary = RunSummary(runID: string, taskID: string, variant: string, repeat: int,
                                   status: Status, tokens: int, metrics: Metrics, error: string)

  datatype Counters = Counters(total: int, passed: int, failed: int, errored: int,
                               inputTokens: int, outputTokens: int, modelCalls: int, toolCalls: int,
                               durationMS: int, costUSD: real, verPassed: int, chgCount: int)

  const ZERO := Counters(0, 0, 0, 0, 0, 0, 0, 0, 0, 0.0, 0, 0)

  function Plus(a: Counters, b: Counters): Counters {
    Counters(a.total + b.total, a.passed + b.passed, a.failed + b.failed, a.errored + b.errored,
             a.inputTokens + b.inputTokens, a.outputTokens + b.outputTokens,
             a.modelCalls + b.modelCalls, a.toolCalls + b.toolCalls,
             a.durationMS + b.durationMS, a.costUSD + b.costUSD,
             a.verPassed + b.verPassed, a.chgCount + b.chgCount)
  }

  function VariantOf(o: Outcome): string {
    if o.job.Some? then o.job.value.variant else "base"
  }

  /** What one outcome adds to its variant's counters. */
  function CountersOf(o: Outcome): Counters {
    var m := o.metrics;
    Counters(1,
             if o.error.None? && o.status.Passed? then 1 else 0,
             if o.error.None? && !o.status.Passed? then 1 else 0,
             if o.error.Some? then 1 else 0,
             m.inputTokens, m.outputTokens, m.modelCalls, m.toolCalls, m.durationMS, m.costUSD,
             if m.verificationPassed then 1 else 0,
             if m.workspaceChanged then 1 else 0)
  }

  function SummaryOf(o: Outcome): RunSummary {
    RunSummary(o.runID, if o.job.Some? then o.job.value.taskID else "", VariantOf(o),
               if o.job.Some? then o.job.value.repeat else 0, o.status,
               o.metrics.inputTokens + o.metrics.outputTokens, o.metrics,
               if o.error.Some? then o.error.value else "")
  }

  /** One variant's result as a value. */
  datatype View = View(name: string, counters: Counters, runs: seq<RunSummary>)

  function AddToView(v: View, o: Outcome): View {
    View(v.name, Plus(v.counters, CountersOf(o)), v.runs + [SummaryOf(o)])
  }

  /** The place of the first variant of that name, or the end. */
  function IndexOf(vs: seq<View>, name: string): (i: nat)
    ensures i <= |vs|
    ensures i < |vs| ==> vs[i].name == name
    ensures forall k :: 0 <= k < i ==> vs[k].name != name
  {
    if vs == [] || vs[0].name == name then 0 else 1 + IndexOf(vs[1..], name)
  }

  function Add(vs: seq<View>, o: Outcome): seq<View> {
    var i := IndexOf(vs, VariantOf(o));
    if i < |vs| then vs[i := AddToView(vs[i], o)]
    else vs + [AddToView(View(VariantOf(o), ZERO, []), o)]
  }

  function AddAll(os: seq<Outcome>): seq<View> {
    if os == [] then [] else Add(AddAll(os[..|os| - 1]), os[|os| - 1])
  }

  class VariantResult {
    const name: string
    var total: int
    var passed: int
    var failed: int
    var errored: int
    var inputTokens: int
    var outputTokens: int
    var modelCalls: int
    var toolCalls: int
    var durationMS: int
    var costUSD: real
    var verPassed: int
    var chgCount: int
    var runs: seq<RunSummary>

    function AsView(): View
      reads this
    {
      View(name, Counters(total, passed, failed, errored, inputTokens, outputTokens, modelCalls, toolCalls,
                          durationMS, costUSD, verPassed, chgCount), runs)
    }

    constructor (name: string)
      ensures AsView() == View(name, ZERO, [])
    {
      this.name := name;
      total, passed, failed, errored := 0, 0, 0, 0;
      inputTokens, outputTokens, modelCalls, toolCalls := 0, 0, 0, 0;
      durationMS, costUSD, verPassed, chgCount := 0, 0.0, 0, 0;
      runs := [];
    }

    method Classify(o: Outcome)
      modifies this`passed, this`failed, this`errored
      ensures passed == old(passed) + CountersOf(o).passed
      ensures failed == old(failed) + CountersOf(o).failed
      ensures errored == old(errored) + CountersOf(o).errored
    {
      if o.error.Some? {
        errored := errored + 1;
      } else if o.status == Passed {
        passed := passed + 1;
      } else {
        failed := failed + 1;
      }
    }

    method Flag(o: Outcome)
      modifies this`verPassed, this`chgCount
      ensures verPassed == old(verPassed) + CountersOf(o).verPassed
      ensures chgCount == old(chgCount) + CountersOf(o).chgCount
    {
      if o.metrics.verificationPassed {
        verPassed := verPassed + 1;
      }
      if o.metrics.workspaceChanged {
        chgCount := chgCount + 1;
      }
    }

    method Sum(m: Metrics)
      modifies this`inputTokens, this`outputTokens, this`modelCalls, this`toolCalls, this`durationMS, this`costUSD
      ensures inputTokens == old(inputTokens) + m.inputTokens && outputTokens == old(outputTokens) + m.outputTokens
      ensures modelCalls == old(modelCalls) + m.modelCalls && toolCalls == old(toolCalls) + m.toolCalls
      ensures durationMS == old(durationMS) + m.durationMS && costUSD == old(costUSD) + m.costUSD
    {
      inputTokens := inputTokens + m.inputTokens;
      outputTokens := outputTokens + m.outputTokens;
      modelCalls := modelCalls + m.modelCalls;
      toolCalls := toolCalls + m.toolCalls;
      durationMS := durationMS + m.durationMS;
      costUSD := costUSD + m.costUSD;
    }

    method Count(o: Outcome)
      modifies this
      ensures AsView() == AddToView(old(AsView()), o)
    {
      total := total + 1;
      Classify(o);
      Sum(o.metrics);
      Flag(o);
      runs := runs + [SummaryOf(o)];
    }
  }

  class BenchReport {
    var variants: seq<VariantResult>

    ghost predicate Valid()
      reads this
    {
      forall i, k :: 0 <= i < k < |variants| ==> variants[i] != variants[k]
    }

    function Views(): (vs: seq<View>)
      reads this, variants
      ensures |vs| == |variants|
    {
      seq(|variants|, i requires 0 <= i < |variants| reads this, variants => variants[i].AsView())
    }

    constructor ()
      ensures Valid() && Views() == []
    {
      variants := [];
    }

    /** The result for that name, appended if there is none yet. */
    method Variant(name: string) returns (ghost i: nat, v: VariantResult)
      requires Valid()
      modifies this
      ensures Valid()
      ensures i == IndexOf(old(Views()), name) < |variants| && v == variants[i]
      ensures i < |old(variants)| ==> variants == old(variants)
      ensures i == |old(variants)| ==> variants == old(variants) + [v] && fresh(v) && v.AsView() == View(name, ZERO, [])
    {
      var j := 0;
      while j < |variants|
        invariant 0 <= j <= |variants|
        invariant IndexOf(Views(), name) == j + IndexOf(Views()[j..], name)
      {
        assert Views()[j..][0] == variants[j].AsView();
        if variants[j].name == name {
          return j, variants[j];
        }
        assert Views()[j..][1..] == Views()[j + 1..];
        j := j + 1;
      }
      i := j;
      v := new VariantResult(name);
      variants := variants + [v];
    }

    method AddOutcome(o: Outcome)
      requires Valid()
      modifies this, variants
      ensures Valid()
      ensures Views() == Add(old(Views()), o)
      ensures forall v :: v in variants ==> v in old(variants) || fresh(v)
    {
      ghost var before := Views();
      var name := "base";
      if o.job.Some? {
        name := o.job.value.variant;
      }
      ghost var i;
      var vr;
      i, vr := Variant(name);
      ghost var base := if i < |before| then before[i] else View(name, ZERO, []);
      assert vr.AsView() == base;
      vr.Count(o);
      assert forall k :: 0 <= k < |before| && k != i ==> variants[k].AsView() == before[k];
      assert Views() == Add(before, o);
    }
  }
}
