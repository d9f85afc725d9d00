// Every step of a trajectory, field by field, from the events that made it.
module StepFields {
  import opened Wrappers
  import opened Steps

  predicate TellsModel(s: Step, ev: Event) {
    && s.typ.ModelStep? && s.args == "" && s.result == ""
    && (match ev.model
        case None => s.name == "" && s.content == "" && s.tokensIn == 0 && s.tokensOut == 0
        case Some(m) => s.name == m.model && s.content == m.content && s.tokensIn == m.tokensIn && s.tokensOut == m.tokensOut)
  }

  predicate TellsError(s: Step, ev: Event) {
    && s.typ.ErrorStep? && s.name == "" && s.args == "" && s.content == "" && s.tokensIn == 0 && s.tokensOut == 0
    && (match ev.error
        case None => s.result == ""
        case Some(message) => s.result == message)
  }

  /** The tool's name and arguments come from its start, if one stands, and its result from its end. */
  predicate TellsTool(s: Step, start: Option<Event>, end: Event) {
    && s.typ.ToolStep? && s.content == "" && s.tokensIn == 0 && s.tokensOut == 0
    && s.result == (if end.tool.Some? then end.tool.value.result else "")
    && (match start
        case Some(b) => s.name == (if b.tool.Some? then b.tool.value.name else "")
                        && s.args == (if b.tool.Some? then b.tool.value.args else "")
        case None => s.name == (if end.tool.Some? then end.tool.value.name else "") && s.args == "")
  }

  function StartFor(evs: seq<Event>, i: nat): Option<Event>
    requires i <= |evs|
  {
    match StandingStart(evs, i)
    case Some(k) => Some(evs[k])
    case None => None
  }

  /** The step tells event i, which ends it. */
  predicate TellsEvent(evs: seq<Event>, i: nat, s: Step)
    requires i < |evs|
  {
    match evs[i].kind
    case ModelEnd => TellsModel(s, evs[i])
    case ErrorSeen => TellsError(s, evs[i])
    case ToolEnd => TellsTool(s, StartFor(evs, i), evs[i])
    case _ => false
  }

  /** Where the events that end a step stand among the first i. */
  function EndingsAmong(evs: seq<Event>, i: nat): (ks: seq<nat>)
    requires i <= |evs|
    ensures forall k: nat :: k in ks <==> k < i && EndsStep(evs[k])
    ensures forall m :: 0 <= m < |ks| ==> ks[m] < i
    ensures forall m, n :: 0 <= m < n < |ks| ==> ks[m] < ks[n]
  {
    if i == 0 then []
    else EndingsAmong(evs, i - 1) + if EndsStep(evs[i - 1]) then [i - 1] else []
  }

  lemma NextStepTells(evs: seq<Event>, i: nat, b: Built)
    requires i < |evs|
    requires b.pending == match StandingStart(evs, i) case Some(k) => Some(StartedTool(evs[k])) case None => None
    ensures var made := Feed(b, evs[i]).steps;
            if EndsStep(evs[i]) then |made| == |b.steps| + 1 && made[..|b.steps|] == b.steps && TellsEvent(evs, i, made[|b.steps|])
            else made == b.steps
  {
  }

  /**
   * On any trace there is one step for each model end, tool end and error, in
   * order, and each tells what its event says: a model's name, text and tokens, an
   * error's message, a tool's result with the name and arguments of its start.
   */
  lemma {:induction false} StepsTell(evs: seq<Event>, i: nat)
    requires i <= |evs|
    ensures var steps, ends := Build(evs[..i]).steps, EndingsAmong(evs, i);
            |steps| == |ends| && forall k :: 0 <= k < |ends| ==> TellsEvent(evs, ends[k], steps[k])
  {
    if i > 0 {
      assert evs[..i][..i - 1] == evs[..i - 1];
      StepsTell(evs, i - 1);
      StandsPending(evs, i - 1);
      var before, made := Build(evs[..i - 1]).steps, Build(evs[..i]).steps;
      NextStepTells(evs, i - 1, Build(evs[..i - 1]));
      assert forall k :: 0 <= k < |before| ==> made[k] == made[..|before|][k];
    }
  }
}
