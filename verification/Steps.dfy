// internal/diff/diff.go, BuildSteps: turning a trace into comparable steps.
module Steps {
  import opened Wrappers

  datatype EventKind = RunStart | RunEnd | ModelStart | ModelEnd | ToolStart | ToolEnd | ErrorSeen

  datatype ModelInfo = ModelInfo(model: string, tokensIn: int, tokensOut: int, content: string)

  datatype ToolInfo = ToolInfo(name: string, args: string, result: string)

  datatype Event = Event(kind: EventKind, model: Option<ModelInfo>, tool: Option<ToolInfo>, error: Option<string>)

  datatype StepType = ModelStep | ToolStep | ErrorStep

  datatype Step = Step(typ: StepType, name: string, args: string, result: string, content: string,
                       tokensIn: int, tokensOut: int)

  /** The steps so far, and the tool call that has started and not ended. */
  datatype Built = Built(steps: seq<Step>, pending: Option<Step>)

  function Blank(typ: StepType): Step {
    Step(typ, "", "", "", "", 0, 0)
  }

  function ModelStepOf(ev: Event): Step {
    match ev.model
    case None => Blank(ModelStep)
    case Some(m) => Blank(ModelStep).(name := m.model, content := m.content, tokensIn := m.tokensIn, tokensOut := m.tokensOut)
  }

  function StartedTool(ev: Event): Step {
    match ev.tool
    case None => Blank(ToolStep)
    case Some(t) => Blank(ToolStep).(name := t.name, args := t.args)
  }

  function ResultOf(ev: Event): string {
    if ev.tool.Some? then ev.tool.value.result else ""
  }

  /** A tool end that no start announced knows only what it carries itself. */
  function LoneToolEnd(ev: Event): Step {
    match ev.tool
    case None => Blank(ToolStep)
    case Some(t) => Blank(ToolStep).(name := t.name, result := t.result)
  }

  function ErrorStepOf(ev: Event): Step {
    Blank(ErrorStep).(result := if ev.error.Some? then ev.error.value else "")
  }

  function Feed(b: Built, ev: Event): Built {
    match ev.kind
    case ModelEnd => b.(steps := b.steps + [ModelStepOf(ev)])
    case ToolStart => b.(pending := Some(StartedTool(ev)))
    case ToolEnd =>
      if b.pending.None? then b.(steps := b.steps + [LoneToolEnd(ev)])
      else
        var ended := if ev.tool.Some? then b.pending.value.(result := ev.tool.value.result) else b.pending.value;
        Built(b.steps + [ended], None)
    case ErrorSeen => b.(steps := b.steps + [ErrorStepOf(ev)])
    case _ => b
  }

  function Build(evs: seq<Event>): Built {
    if evs == [] then Built([], None) else Feed(Build(evs[..|evs| - 1]), evs[|evs| - 1])
  }

  method BuildSteps(evs: seq<Event>) returns (steps: seq<Step>)
    ensures steps == Build(evs).steps
  {
    steps := [];
    var pendingTool: Option<Step> := None;
    for i := 0 to |evs|
      invariant Built(steps, pendingTool) == Build(evs[..i])
    {
      var ev := evs[i];
      assert evs[..i + 1][..i] == evs[..i];
      match ev.kind
      case ModelEnd =>
        var s := Blank(ModelStep);
        if ev.model.Some? {
          s := s.(name := ev.model.value.model, content := ev.model.value.content,
                  tokensIn := ev.model.value.tokensIn, tokensOut := ev.model.value.tokensOut);
        }
        steps := steps + [s];
      case ToolStart =>
        var s := Blank(ToolStep);
        if ev.tool.Some? {
          s := s.(name := ev.tool.value.name, args := ev.tool.value.args);
        }
        pendingTool := Some(s);
      case ToolEnd =>
        if pendingTool.None? {
          steps := steps + [LoneToolEnd(ev)];
          continue;
        }
        if ev.tool.Some? {
          pendingTool := Some(pendingTool.value.(result := ev.tool.value.result));
        }
        steps := steps + [pendingTool.value];
        pendingTool := None;
      case ErrorSeen =>
        steps := steps + [ErrorStepOf(ev)];
      case _ =>
    }
    assert evs[..|evs|] == evs;
  }

  predicate EndsStep(ev: Event) {
    ev.kind.ModelEnd? || ev.kind.ToolEnd? || ev.kind.ErrorSeen?
  }

  function StepEnds(evs: seq<Event>): nat {
    if evs == [] then 0 else StepEnds(evs[..|evs| - 1]) + if EndsStep(evs[|evs| - 1]) then 1 else 0
  }

  /** One step for each model end, tool end and error, and none for anything else. */
  lemma {:induction false} StepCount(evs: seq<Event>)
    ensures |Build(evs).steps| == StepEnds(evs)
  {
    if evs != [] {
      StepCount(evs[..|evs| - 1]);
    }
  }

  /** Where no tool call is pending a trace can be cut: its parts build on their own. */
  lemma {:induction false} BuildDistributes(a: seq<Event>, b: seq<Event>)
    requires Build(a).pending.None?
    ensures Build(a + b) == Built(Build(a).steps + Build(b).steps, Build(b).pending)
  {
    if b == [] {
      assert a + b == a;
    } else {
      var front := b[..|b| - 1];
      assert (a + b)[..|a + b| - 1] == a + front;
      BuildDistributes(a, front);
    }
  }

  // ---- Alternating tool calls ----

  function ToolStarts(evs: seq<Event>): seq<Event> {
    if evs == [] then []
    else ToolStarts(evs[..|evs| - 1]) + if evs[|evs| - 1].kind.ToolStart? then [evs[|evs| - 1]] else []
  }

  function ToolEnds(evs: seq<Event>): seq<Event> {
    if evs == [] then []
    else ToolEnds(evs[..|evs| - 1]) + if evs[|evs| - 1].kind.ToolEnd? then [evs[|evs| - 1]] else []
  }

  /** Tool starts and ends take turns, beginning with a start. */
  ghost predicate Alternates(evs: seq<Event>) {
    forall i :: 0 <= i <= |evs| ==>
      |ToolEnds(evs[..i])| <= |ToolStarts(evs[..i])| <= |ToolEnds(evs[..i])| + 1
  }

  function ToolStepsOf(steps: seq<Step>): seq<Step> {
    if steps == [] then []
    else ToolStepsOf(steps[..|steps| - 1])
         + if steps[|steps| - 1].typ.ToolStep? then [steps[|steps| - 1]] else []
  }

  /** The tool step of a start and its end. */
  function Paired(start: Event, end: Event): Step {
    StartedTool(start).(result := ResultOf(end))
  }

  lemma AlternatesPrefix(evs: seq<Event>)
    requires evs != [] && Alternates(evs)
    ensures Alternates(evs[..|evs| - 1])
  {
    var front := evs[..|evs| - 1];
    assert forall i :: 0 <= i <= |front| ==> front[..i] == evs[..i];
  }

  lemma ToolStepsGrow(steps: seq<Step>, s: Step)
    ensures ToolStepsOf(steps + [s]) == ToolStepsOf(steps) + if s.typ.ToolStep? then [s] else []
  {
    assert (steps + [s])[..|steps + [s]| - 1] == steps;
  }

  /** The k-th tool step is made of the k-th start and the k-th end. */
  ghost predicate Matched(starts: seq<Event>, ends: seq<Event>, b: Built) {
    var tools := ToolStepsOf(b.steps);
    && |ends| <= |starts| <= |ends| + 1
    && |tools| == |ends|
    && (forall k :: 0 <= k < |tools| ==> tools[k] == Paired(starts[k], ends[k]))
    && b.pending == if |starts| > |ends| then Some(StartedTool(starts[|ends|])) else None
  }

  lemma FeedMatches(starts: seq<Event>, ends: seq<Event>, b: Built, ev: Event)
    requires Matched(starts, ends, b) && !ev.kind.ToolEnd?
    requires ev.kind.ToolStart? ==> |starts| == |ends|
    ensures Matched(starts + if ev.kind.ToolStart? then [ev] else [], ends, Feed(b, ev))
  {
    if EndsStep(ev) {
      var s := if ev.kind.ModelEnd? then ModelStepOf(ev) else ErrorStepOf(ev);
      ToolStepsGrow(b.steps, s);
    }
  }

  lemma FeedEndMatches(starts: seq<Event>, ends: seq<Event>, b: Built, ev: Event)
    requires Matched(starts, ends, b) && ev.kind.ToolEnd? && |starts| == |ends| + 1
    ensures Matched(starts, ends + [ev], Feed(b, ev))
  {
    ToolStepsGrow(b.steps, Paired(starts[|ends|], ev));
  }

  /**
   * On a trace whose tool starts and ends alternate, the k-th tool step has the
   * name and arguments of the k-th start and the result of the k-th end.
   */
  lemma {:induction false} ToolStepsArePairs(evs: seq<Event>)
    requires Alternates(evs)
    ensures Matched(ToolStarts(evs), ToolEnds(evs), Build(evs))
  {
    assert evs[..|evs|] == evs;
    assert |ToolEnds(evs[..|evs|])| <= |ToolStarts(evs[..|evs|])| <= |ToolEnds(evs[..|evs|])| + 1;
    if evs != [] {
      var front, ev := evs[..|evs| - 1], evs[|evs| - 1];
      AlternatesPrefix(evs);
      ToolStepsArePairs(front);
      if ev.kind.ToolEnd? {
        FeedEndMatches(ToolStarts(front), ToolEnds(front), Build(front), ev);
      } else {
        FeedMatches(ToolStarts(front), ToolEnds(front), Build(front), ev);
      }
    }
  }

  // ---- Any trace ----

  predicate OfTool(ev: Event) {
    ev.kind.ToolStart? || ev.kind.ToolEnd?
  }

  ghost predicate EndBetween(evs: seq<Event>, m: int, i: nat)
    requires 0 <= m < i <= |evs|
  {
    exists n :: m < n < i && evs[n].kind.ToolEnd?
  }

  /** The start that stands when the first i events are over: the last one since the previous tool end. */
  function StandingStart(evs: seq<Event>, i: nat): (k: Option<nat>)
    requires i <= |evs|
    ensures k.Some? ==> k.value < i && evs[k.value].kind.ToolStart? && forall m :: k.value < m < i ==> !OfTool(evs[m])
    ensures k.None? ==> forall m :: 0 <= m < i && evs[m].kind.ToolStart? ==> EndBetween(evs, m, i)
  {
    if i == 0 || evs[i - 1].kind.ToolEnd? then None
    else if evs[i - 1].kind.ToolStart? then Some(i - 1)
    else StandingStart(evs, i - 1)
  }

  /** Where the tool ends are among the first i events. */
  function EndsAmong(evs: seq<Event>, i: nat): (ks: seq<nat>)
    requires i <= |evs|
    ensures forall k: nat :: k in ks <==> k < i && evs[k].kind.ToolEnd?
    ensures forall m :: 0 <= m < |ks| ==> ks[m] < i && evs[ks[m]].kind.ToolEnd?
    ensures forall m, n :: 0 <= m < n < |ks| ==> ks[m] < ks[n]
  {
    if i == 0 then []
    else EndsAmong(evs, i - 1) + if evs[i - 1].kind.ToolEnd? then [i - 1] else []
  }

  /** The step a tool end makes: with the standing start, or alone when there is none. */
  function StepOfEnd(evs: seq<Event>, i: nat): Step
    requires i < |evs|
  {
    match StandingStart(evs, i)
    case Some(k) => Paired(evs[k], evs[i])
    case None => LoneToolEnd(evs[i])
  }

  lemma {:induction false} StandsPending(evs: seq<Event>, i: nat)
    requires i <= |evs|
    ensures Build(evs[..i]).pending
         == match StandingStart(evs, i) case Some(k) => Some(StartedTool(evs[k])) case None => None
  {
    if i > 0 {
      assert evs[..i][..i - 1] == evs[..i - 1];
      StandsPending(evs, i - 1);
    }
  }

  /**
   * On any trace the tool steps are those of the tool ends, in order: each has the
   * name and arguments of the last start since the previous tool end, if there is
   * one, and its own result.
   */
  lemma {:induction false} ToolStepsOfEnds(evs: seq<Event>, i: nat)
    requires i <= |evs|
    ensures var tools, ends := ToolStepsOf(Build(evs[..i]).steps), EndsAmong(evs, i);
            |tools| == |ends| && forall m :: 0 <= m < |ends| ==> tools[m] == StepOfEnd(evs, ends[m])
  {
    if i > 0 {
      assert evs[..i][..i - 1] == evs[..i - 1];
      ToolStepsOfEnds(evs, i - 1);
      StandsPending(evs, i - 1);
      FeedAddsStep(Build(evs[..i - 1]), evs[i - 1]);
    }
  }

  /** What one event adds to the tool steps. */
  lemma FeedAddsStep(b: Built, ev: Event)
    requires b.pending.Some? ==> b.pending.value.typ.ToolStep?
    ensures ToolStepsOf(Feed(b, ev).steps)
         == ToolStepsOf(b.steps)
            + if !ev.kind.ToolEnd? then []
              else [if b.pending.None? then LoneToolEnd(ev)
                    else if ev.tool.Some? then b.pending.value.(result := ev.tool.value.result) else b.pending.value]
  {
    if EndsStep(ev) {
      var made := Feed(b, ev).steps;
      assert made == b.steps + [made[|b.steps|]];
      ToolStepsGrow(b.steps, made[|b.steps|]);
    }
  }

  /** Two starts in a row lose the first call: its end is paired with the second's start. */
  lemma OverlappingCallsMispair(first: ToolInfo, second: ToolInfo, result: ToolInfo)
    requires first.name != second.name
    ensures var evs := [Event(ToolStart, None, Some(first), None), Event(ToolStart, None, Some(second), None),
                        Event(ToolEnd, None, Some(result), None)];
            Build(evs).steps == [Blank(ToolStep).(name := second.name, args := second.args, result := result.result)]
  {
    var evs := [Event(ToolStart, None, Some(first), None), Event(ToolStart, None, Some(second), None),
                Event(ToolEnd, None, Some(result), None)];
    assert evs[..2][..1] == [evs[0]] && evs[..2][1] == evs[1] && [evs[0]][..0] == [];
    assert Build([evs[0]]) == Feed(Build([]), evs[0]);
    assert Build(evs[..2]) == Feed(Build([evs[0]]), evs[1]);
    assert Build(evs) == Feed(Build(evs[..2]), evs[2]);
  }
}
