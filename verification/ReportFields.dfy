// What each field of a report says about the outcomes it was made from.
module ReportFields {
  import opened Wrappers
  import opened Report
  import opened ReportLaws

  /** Where in xs the entries with property p stand. */
  function Where<T>(xs: seq<T>, p: T -> bool): set<int> {
    set i | 0 <= i < |xs| && p(xs[i])
  }

  lemma WhereGrows<T>(xs: seq<T>, p: T -> bool)
    requires xs != []
    ensures |Where(xs, p)| == |Where(xs[..|xs| - 1], p)| + if p(xs[|xs| - 1]) then 1 else 0
  {
    var n := |xs| - 1;
    if p(xs[n]) {
      assert Where(xs, p) == Where(xs[..n], p) + {n};
    } else {
      assert Where(xs, p) == Where(xs[..n], p);
    }
  }

  function Total(os: seq<Outcome>, of: Outcome -> int): int {
    if os == [] then 0 else Total(os[..|os| - 1], of) + of(os[|os| - 1])
  }

  function TotalCost(os: seq<Outcome>): real {
    if os == [] then 0.0 else TotalCost(os[..|os| - 1]) + os[|os| - 1].metrics.costUSD
  }

  predicate DidPass(o: Outcome) { o.error.None? && o.status == Passed }

  predicate DidFail(o: Outcome) { o.error.None? && o.status != Passed }

  predicate HadError(o: Outcome) { o.error.Some? }

  predicate WasVerified(o: Outcome) { o.metrics.verificationPassed }

  predicate ChangedWorkspace(o: Outcome) { o.metrics.workspaceChanged }

  function InputOf(o: Outcome): int { o.metrics.inputTokens }

  function OutputOf(o: Outcome): int { o.metrics.outputTokens }

  function ModelCallsOf(o: Outcome): int { o.metrics.modelCalls }

  function ToolCallsOf(o: Outcome): int { o.metrics.toolCalls }

  function DurationOf(o: Outcome): int { o.metrics.durationMS }

  /** The outcome counts for the variant: its job's, or the base when it has no job. */
  predicate BelongsTo(o: Outcome, name: string) {
    match o.job
    case None => name == "base"
    case Some(j) => j.variant == name
  }

  /** The outcomes of a variant, in the order they arrived. */
  function Own(os: seq<Outcome>, name: string): seq<Outcome> {
    if os == [] then []
    else
      var last := os[|os| - 1];
      Own(os[..|os| - 1], name) + if BelongsTo(last, name) then [last] else []
  }

  lemma OwnGrows(os: seq<Outcome>, name: string)
    requires os != []
    ensures var own, last := Own(os, name), os[|os| - 1];
            if BelongsTo(last, name) then own != [] && own[|own| - 1] == last && own[..|own| - 1] == Own(os[..|os| - 1], name)
            else own == Own(os[..|os| - 1], name)
  {
  }

  lemma {:induction false} CountedOutcomes(os: seq<Outcome>, name: string)
    ensures var c, own := CountersFor(os, name), Own(os, name);
            && c.total == |own|
            && c.passed == |Where(own, DidPass)|
            && c.failed == |Where(own, DidFail)|
            && c.errored == |Where(own, HadError)|
  {
    if os != [] {
      var own := Own(os, name);
      CountedOutcomes(os[..|os| - 1], name);
      OwnGrows(os, name);
      if BelongsTo(os[|os| - 1], name) {
        WhereGrows(own, DidPass);
        WhereGrows(own, DidFail);
        WhereGrows(own, HadError);
      }
    }
  }

  lemma {:induction false} CountedFlags(os: seq<Outcome>, name: string)
    ensures var c, own := CountersFor(os, name), Own(os, name);
            && c.verPassed == |Where(own, WasVerified)|
            && c.chgCount == |Where(own, ChangedWorkspace)|
  {
    if os != [] {
      var own := Own(os, name);
      CountedFlags(os[..|os| - 1], name);
      OwnGrows(os, name);
      if BelongsTo(os[|os| - 1], name) {
        WhereGrows(own, WasVerified);
        WhereGrows(own, ChangedWorkspace);
      }
    }
  }

  lemma {:induction false} SummedMetrics(os: seq<Outcome>, name: string)
    ensures var c, own := CountersFor(os, name), Own(os, name);
            && c.inputTokens == Total(own, InputOf)
            && c.outputTokens == Total(own, OutputOf)
            && c.modelCalls == Total(own, ModelCallsOf)
            && c.toolCalls == Total(own, ToolCallsOf)
            && c.durationMS == Total(own, DurationOf)
            && c.costUSD == TotalCost(own)
  {
    if os != [] {
      SummedMetrics(os[..|os| - 1], name);
      OwnGrows(os, name);
    }
  }

  /** The summary r of a run tells its outcome o. */
  predicate Tells(r: RunSummary, o: Outcome) {
    && r.runID == o.runID && r.status == o.status && r.metrics == o.metrics
    && r.tokens == o.metrics.inputTokens + o.metrics.outputTokens
    && BelongsTo(o, r.variant)
    && (match o.job
        case None => r.taskID == "" && r.repeat == 0
        case Some(j) => r.taskID == j.taskID && r.repeat == j.repeat)
    && (match o.error
        case None => r.error == ""
        case Some(e) => r.error == e)
  }

  lemma {:induction false} RunsTell(os: seq<Outcome>, name: string)
    ensures var runs, own := RunsFor(os, name), Own(os, name);
            |runs| == |own| && forall k :: 0 <= k < |own| ==> Tells(runs[k], own[k])
  {
    if os != [] {
      RunsTell(os[..|os| - 1], name);
      OwnGrows(os, name);
    }
  }

  /**
   * Every field of a variant in terms of its own outcomes: how many there are, how
   * many passed, failed without an error, errored, passed verification and changed
   * the workspace; the sums of their metrics; and one summary for each, in order.
   */
  lemma VariantShows(os: seq<Outcome>, v: View)
    requires v in AddAll(os)
    ensures var c, own := v.counters, Own(os, v.name);
            && c.total == |own|
            && c.passed == |Where(own, DidPass)|
            && c.failed == |Where(own, DidFail)|
            && c.errored == |Where(own, HadError)|
            && c.verPassed == |Where(own, WasVerified)|
            && c.chgCount == |Where(own, ChangedWorkspace)|
            && c.inputTokens == Total(own, InputOf)
            && c.outputTokens == Total(own, OutputOf)
            && c.modelCalls == Total(own, ModelCallsOf)
            && c.toolCalls == Total(own, ToolCallsOf)
            && c.durationMS == Total(own, DurationOf)
            && c.costUSD == TotalCost(own)
            && |v.runs| == |own| && forall k :: 0 <= k < |own| ==> Tells(v.runs[k], own[k])
  {
    ReportIsFaithful(os);
    var i :| 0 <= i < |AddAll(os)| && AddAll(os)[i] == v;
    assert Faithful(os, v);
    CountedOutcomes(os, v.name);
    CountedFlags(os, v.name);
    SummedMetrics(os, v.name);
    RunsTell(os, v.name);
  }

  /** A further outcome leaves every variant in its place and adds at most one, at the end. */
  lemma VariantsKeepPlace(os: seq<Outcome>, o: Outcome)
    ensures var vs, more := AddAll(os), AddAll(os + [o]);
            && |vs| <= |more| <= |vs| + 1
            && (forall i :: 0 <= i < |vs| ==> more[i].name == vs[i].name)
            && (|more| > |vs| ==> BelongsTo(o, more[|vs|].name))
  {
    assert (os + [o])[..|os|] == os;
  }

  // ---- By task ----

  function RunOf(id: string): RunSummary -> bool {
    (r: RunSummary) => r.taskID == id
  }

  function PassedRunOf(id: string): RunSummary -> bool {
    (r: RunSummary) => r.taskID == id && r.status == Passed
  }

  /** A task's figures count its runs, and those that passed. */
  lemma {:induction false} TaskFigures(runs: seq<RunSummary>, id: string)
    ensures TotalOf(runs, id) == |Where(runs, RunOf(id))|
    ensures PassedOf(runs, id) == |Where(runs, PassedRunOf(id))|
  {
    if runs != [] {
      TaskFigures(runs[..|runs| - 1], id);
      WhereGrows(runs, RunOf(id));
      WhereGrows(runs, PassedRunOf(id));
    }
  }

  ghost predicate HasTask(runs: seq<RunSummary>, id: string) {
    exists i :: 0 <= i < |runs| && runs[i].taskID == id
  }

  /** Tasks are those of the runs that have one, and a further run leaves them in their places. */
  lemma {:induction false} TasksAsSeen(runs: seq<RunSummary>, k: nat)
    requires k <= |runs|
    ensures TaskOrder(runs[..k]) <= TaskOrder(runs)
    ensures forall id :: id in TaskOrder(runs) <==> id != "" && HasTask(runs, id)
  {
    if runs == [] {
      assert runs[..k] == runs;
    } else {
      var front, last := runs[..|runs| - 1], runs[|runs| - 1];
      assert runs == front + [last];
      TasksAsSeen(front, if k < |runs| then k else 0);
      assert if k < |runs| then front[..k] == runs[..k] else runs[..k] == runs;
      forall id ensures id in TaskOrder(runs) <==> id != "" && HasTask(runs, id) {
        HasTaskGrows(front, last, id);
      }
    }
  }

  lemma HasTaskGrows(runs: seq<RunSummary>, r: RunSummary, id: string)
    ensures HasTask(runs + [r], id) <==> HasTask(runs, id) || r.taskID == id
  {
    var all := runs + [r];
    assert all[|runs|] == r;
    if i :| 0 <= i < |runs| && runs[i].taskID == id {
      assert all[i].taskID == id;
    }
  }
}
