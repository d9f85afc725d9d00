// internal/runtime/trpc/normalize.go: the state machine that turns framework
// frames into bracketed trace events and counters.
module Normalizer {
  import opened Wrappers
  import opened Frames

  const MAX_CONTENT_LEN := 800

  datatype Body =
    | ModelStart(model: string)
    | ModelEnd(model: string, tokensIn: int, tokensOut: int, content: string)
    | ToolStart(name: string, args: string)
    | ToolEnd(name: string, result: string)
    | Error(message: string, typ: string)

  /** A trace event; its id is the run id and the sequence number. */
  datatype RunEvent = RunEvent(seqNo: int, step: int, body: Body)

  datatype State = State(
    seqNo: int, step: int,
    inModel: bool, modelName: string, tokensIn: int, tokensOut: int, content: string,
    toolNames: map<string, string>, seenToolIDs: set<string>, lastToolName: string,
    modelCalls: int, toolCalls: int, inputTokens: int, outputTokens: int)

  const INITIAL := State(0, 0, false, "", 0, 0, "", map[], {}, "", 0, 0, 0, 0)

  /** What handling some input leaves: the new state and the events emitted. */
  datatype Out = Out(st: State, events: seq<RunEvent>)

  function Idle(st: State): Out {
    Out(st, [])
  }

  function Then(o: Out, next: Out): Out {
    Out(next.st, o.events + next.events)
  }

  /** r is s, cut after 800 characters and marked as cut if it has more. */
  predicate IsClipOf(r: string, s: string) {
    if |s| <= 800 then r == s else |r| == 803 && r[..800] == s[..800] && r[800..] == "..."
  }

  function Clip(s: string): (r: string)
    ensures IsClipOf(r, s)
  {
    if |s| <= MAX_CONTENT_LEN then s else s[..MAX_CONTENT_LEN] + "..."
  }

  function Emit(st: State, body: Body): Out {
    Out(st.(seqNo := st.seqNo + 1, step := st.step + 1), [RunEvent(st.seqNo + 1, st.step + 1, body)])
  }

  function StartModel(st: State, model: string): Out {
    if st.inModel then Idle(st)
    else Emit(st.(inModel := true, modelCalls := st.modelCalls + 1, modelName := model), ModelStart(model))
  }

  function SetUsage(st: State, usage: Option<Usage>): State {
    match usage
    case None => st
    case Some(u) => st.(tokensIn := u.prompt, tokensOut := u.completion)
  }

  function EndModel(st: State): Out {
    Emit(st.(inModel := false, content := "",
             inputTokens := st.inputTokens + st.tokensIn,
             outputTokens := st.outputTokens + st.tokensOut),
         ModelEnd(st.modelName, st.tokensIn, st.tokensOut, Clip(st.content)))
  }

  function StartTool(st: State, tc: ToolCall, args: string): Out {
    Emit(st.(toolCalls := st.toolCalls + 1, lastToolName := tc.name, toolNames := st.toolNames[tc.id := tc.name]),
         ToolStart(tc.name, args))
  }

  /** A tool call in a streaming delta: its arguments are not complete yet. */
  function DeltaCall(st: State, tc: ToolCall): Out {
    var st1 := if tc.id != "" then st.(seenToolIDs := st.seenToolIDs + {tc.id}) else st;
    if tc.name == "" then Idle(st1) else StartTool(st1, tc, "")
  }

  function DeltaCalls(st: State, tcs: seq<ToolCall>): Out {
    if tcs == [] then Idle(st)
    else var o := DeltaCalls(st, tcs[..|tcs| - 1]); Then(o, DeltaCall(o.st, tcs[|tcs| - 1]))
  }

  function DeltaChoice(st: State, ch: Choice): Out {
    DeltaCalls(st.(content := st.content + ch.delta.content), ch.delta.toolCalls)
  }

  function DeltaChoices(st: State, chs: seq<Choice>): Out {
    if chs == [] then Idle(st)
    else var o := DeltaChoices(st, chs[..|chs| - 1]); Then(o, DeltaChoice(o.st, chs[|chs| - 1]))
  }

  /** A tool call in the aggregated frame: skipped when a delta announced it. */
  function FinalCall(st: State, tc: ToolCall): Out {
    if tc.name == "" || (tc.id != "" && tc.id in st.seenToolIDs) then Idle(st)
    else StartTool(if tc.id != "" then st.(seenToolIDs := st.seenToolIDs + {tc.id}) else st, tc, tc.args)
  }

  function FinalCalls(st: State, tcs: seq<ToolCall>): Out {
    if tcs == [] then Idle(st)
    else var o := FinalCalls(st, tcs[..|tcs| - 1]); Then(o, FinalCall(o.st, tcs[|tcs| - 1]))
  }

  function FinalChoices(st: State, chs: seq<Choice>): Out {
    if chs == [] then Idle(st)
    else var o := FinalChoices(st, chs[..|chs| - 1]); Then(o, FinalCalls(o.st, chs[|chs| - 1].message.toolCalls))
  }

  function MessageText(chs: seq<Choice>): string {
    if chs == [] then "" else MessageText(chs[..|chs| - 1]) + chs[|chs| - 1].message.content
  }

  function HandleChunk(st: State, ev: Response): Out {
    var o1 := StartModel(st, ev.model);
    var o2 := Then(o1, DeltaChoices(o1.st, ev.choices));
    var o3 := Out(SetUsage(o2.st, ev.usage), o2.events);
    if ev.done then Then(o3, EndModel(o3.st)) else o3
  }

  function HandleCompletion(st: State, ev: Response): Out {
    var o1 := StartModel(st, ev.model);
    var text := if st.inModel then "" else MessageText(ev.choices);
    var o2 := Then(o1, FinalChoices(o1.st.(content := o1.st.content + text), ev.choices));
    var o3 := Out(SetUsage(o2.st, ev.usage), o2.events);
    Then(o3, EndModel(o3.st))
  }

  function HandleToolResponse(st: State, ev: Response): Out {
    var result := if |ev.choices| > 0 then ev.choices[0].message.content else "";
    var id := if |ev.choices| == 0 then ""
              else if ev.choices[0].message.toolID != "" then ev.choices[0].message.toolID
              else ev.choices[0].delta.toolID;
    var known := if id in st.toolNames then st.toolNames[id] else "";
    Emit(st, ToolEnd(if known == "" then st.lastToolName else known, Clip(result)))
  }

  function HandleError(st: State, ev: Response, typ: string): Out {
    var msg := if ev.error.Some? && ev.error.value.message != "" then ev.error.value.message else "unknown error";
    Emit(st, Error(Clip(msg), typ))
  }

  function Handle(st: State, ev: Response): Out {
    if ev.error.Some? then HandleError(st, ev, ev.error.value.typ)
    else
      match ev.kind
      case Chunk => HandleChunk(st, ev)
      case Completion => HandleCompletion(st, ev)
      case ToolResponse => HandleToolResponse(st, ev)
      case ErrorObject => HandleError(st, ev, "model_error")
      case Plumbing => Idle(st)
  }

  /** The adapter's loop over a run's frames. */
  function HandleAll(st: State, evs: seq<Response>): Out {
    if evs == [] then Idle(st)
    else var o := HandleAll(st, evs[..|evs| - 1]); Then(o, Handle(o.st, evs[|evs| - 1]))
  }

  lemma DeltaCallsGrow(st: State, tcs: seq<ToolCall>, i: nat)
    requires i < |tcs|
    ensures var o := DeltaCalls(st, tcs[..i]);
            DeltaCalls(st, tcs[..i + 1]) == Then(o, DeltaCall(o.st, tcs[i]))
  {
    assert tcs[..i + 1][..i] == tcs[..i];
  }

  lemma FinalCallsGrow(st: State, tcs: seq<ToolCall>, i: nat)
    requires i < |tcs|
    ensures var o := FinalCalls(st, tcs[..i]);
            FinalCalls(st, tcs[..i + 1]) == Then(o, FinalCall(o.st, tcs[i]))
  {
    assert tcs[..i + 1][..i] == tcs[..i];
  }

  lemma DeltaChoicesGrow(st: State, chs: seq<Choice>, i: nat)
    requires i < |chs|
    ensures var o := DeltaChoices(st, chs[..i]);
            DeltaChoices(st, chs[..i + 1]) == Then(o, DeltaChoice(o.st, chs[i]))
  {
    assert chs[..i + 1][..i] == chs[..i];
  }

  lemma FinalChoicesGrow(st: State, chs: seq<Choice>, i: nat)
    requires i < |chs|
    ensures var o := FinalChoices(st, chs[..i]);
            FinalChoices(st, chs[..i + 1]) == Then(o, FinalCalls(o.st, chs[i].message.toolCalls))
  {
    assert chs[..i + 1][..i] == chs[..i];
  }

  class EventNormalizer {
    var seqNo: int
    var step: int
    var inModel: bool
    var modelName: string
    var tokensIn: int
    var tokensOut: int
    var content: string
    var toolNames: map<string, string>
    var seenToolIDs: set<string>
    var lastToolName: string
    var modelCalls: int
    var toolCalls: int
    var inputTokens: int
    var outputTokens: int

    ghost function St(): State
      reads this
    {
      State(seqNo, step, inModel, modelName, tokensIn, tokensOut, content,
            toolNames, seenToolIDs, lastToolName, modelCalls, toolCalls, inputTokens, outputTokens)
    }

    constructor ()
      ensures St() == INITIAL
    {
      seqNo, step, inModel, modelName, tokensIn, tokensOut, content := 0, 0, false, "", 0, 0, "";
      toolNames, seenToolIDs, lastToolName := map[], {}, "";
      modelCalls, toolCalls, inputTokens, outputTokens := 0, 0, 0, 0;
    }

    method EmitEvent(body: Body) returns (e: RunEvent)
      modifies this`seqNo, this`step
      ensures Out(St(), [e]) == Emit(old(St()), body)
    {
      seqNo := seqNo + 1;
      step := step + 1;
      e := RunEvent(seqNo, step, body);
    }

    method BeginCall(model: string) returns (out: seq<RunEvent>)
      modifies this
      ensures Out(St(), out) == StartModel(old(St()), model)
    {
      out := [];
      if !inModel {
        inModel := true;
        modelCalls := modelCalls + 1;
        modelName := model;
        var e := EmitEvent(ModelStart(modelName));
        out := [e];
      }
    }

    method TakeUsage(usage: Option<Usage>)
      modifies this`tokensIn, this`tokensOut
      ensures St() == SetUsage(old(St()), usage)
    {
      if usage.Some? {
        tokensIn := usage.value.prompt;
        tokensOut := usage.value.completion;
      }
    }

    method EndCall() returns (out: seq<RunEvent>)
      modifies this
      ensures Out(St(), out) == EndModel(old(St()))
    {
      inModel := false;
      inputTokens := inputTokens + tokensIn;
      outputTokens := outputTokens + tokensOut;
      var text := content;
      content := "";
      var e := EmitEvent(ModelEnd(modelName, tokensIn, tokensOut, Clip(text)));
      out := [e];
    }

    method TakeDeltaCall(tc: ToolCall) returns (out: seq<RunEvent>)
      modifies this
      ensures Out(St(), out) == DeltaCall(old(St()), tc)
    {
      out := [];
      if tc.id != "" {
        seenToolIDs := seenToolIDs + {tc.id};
      }
      if tc.name == "" {
        return;
      }
      toolCalls := toolCalls + 1;
      lastToolName := tc.name;
      toolNames := toolNames[tc.id := tc.name];
      var e := EmitEvent(ToolStart(tc.name, ""));
      out := [e];
    }

    method TakeDeltaCalls(tcs: seq<ToolCall>) returns (out: seq<RunEvent>)
      modifies this
      ensures Out(St(), out) == DeltaCalls(old(St()), tcs)
    {
      out := [];
      ghost var start := St();
      for i := 0 to |tcs|
        invariant Out(St(), out) == DeltaCalls(start, tcs[..i])
      {
        DeltaCallsGrow(start, tcs, i);
        var more := TakeDeltaCall(tcs[i]);
        out := out + more;
      }
      assert tcs[..|tcs|] == tcs;
    }

    method TakeFinalCall(tc: ToolCall) returns (out: seq<RunEvent>)
      modifies this
      ensures Out(St(), out) == FinalCall(old(St()), tc)
    {
      out := [];
      if tc.name == "" {
        return;
      }
      if tc.id != "" {
        if tc.id in seenToolIDs {
          return;
        }
        seenToolIDs := seenToolIDs + {tc.id};
      }
      toolCalls := toolCalls + 1;
      lastToolName := tc.name;
      toolNames := toolNames[tc.id := tc.name];
      var e := EmitEvent(ToolStart(tc.name, tc.args));
      out := [e];
    }

    method TakeFinalCalls(tcs: seq<ToolCall>) returns (out: seq<RunEvent>)
      modifies this
      ensures Out(St(), out) == FinalCalls(old(St()), tcs)
    {
      out := [];
      ghost var start := St();
      for i := 0 to |tcs|
        invariant Out(St(), out) == FinalCalls(start, tcs[..i])
      {
        FinalCallsGrow(start, tcs, i);
        var more := TakeFinalCall(tcs[i]);
        out := out + more;
      }
      assert tcs[..|tcs|] == tcs;
    }

    method TakeDeltaChoice(ch: Choice) returns (out: seq<RunEvent>)
      modifies this
      ensures Out(St(), out) == DeltaChoice(old(St()), ch)
    {
      if ch.delta.content != "" {
        content := content + ch.delta.content;
      }
      assert content == old(content) + ch.delta.content;
      out := TakeDeltaCalls(ch.delta.toolCalls);
    }

    method TakeDeltaChoices(chs: seq<Choice>) returns (out: seq<RunEvent>)
      modifies this
      ensures Out(St(), out) == DeltaChoices(old(St()), chs)
    {
      out := [];
      ghost var start := St();
      for i := 0 to |chs|
        invariant Out(St(), out) == DeltaChoices(start, chs[..i])
      {
        DeltaChoicesGrow(start, chs, i);
        var more := TakeDeltaChoice(chs[i]);
        out := out + more;
      }
      assert chs[..|chs|] == chs;
    }

    method TakeFinalChoices(chs: seq<Choice>) returns (out: seq<RunEvent>)
      modifies this
      ensures Out(St(), out) == FinalChoices(old(St()), chs)
    {
      out := [];
      ghost var start := St();
      for i := 0 to |chs|
        invariant Out(St(), out) == FinalChoices(start, chs[..i])
      {
        FinalChoicesGrow(start, chs, i);
        var more := TakeFinalCalls(chs[i].message.toolCalls);
        out := out + more;
      }
      assert chs[..|chs|] == chs;
    }

    method TakeChunk(ev: Response) returns (out: seq<RunEvent>)
      modifies this
      ensures Out(St(), out) == HandleChunk(old(St()), ev)
    {
      out := BeginCall(ev.model);
      var started := TakeDeltaChoices(ev.choices);
      out := out + started;
      TakeUsage(ev.usage);
      if ev.done {
        var more := EndCall();
        out := out + more;
      }
    }

    method TakeMessages(chs: seq<Choice>)
      modifies this`content
      ensures St() == old(St()).(content := old(content) + MessageText(chs))
    {
      for i := 0 to |chs|
        invariant content == old(content) + MessageText(chs[..i])
      {
        assert chs[..i + 1][..i] == chs[..i];
        if chs[i].message.content != "" {
          content := content + chs[i].message.content;
        }
      }
      assert chs[..|chs|] == chs;
    }

    method TakeCompletion(ev: Response) returns (out: seq<RunEvent>)
      modifies this
      ensures Out(St(), out) == HandleCompletion(old(St()), ev)
    {
      var streaming := inModel;
      out := BeginCall(ev.model);
      assert content + "" == content;
      if !streaming {
        TakeMessages(ev.choices);
      }
      var started := TakeFinalChoices(ev.choices);
      out := out + started;
      TakeUsage(ev.usage);
      var more := EndCall();
      out := out + more;
    }

    method TakeToolResponse(ev: Response) returns (out: seq<RunEvent>)
      modifies this
      ensures Out(St(), out) == HandleToolResponse(old(St()), ev)
    {
      var result, toolID := "", "";
      if |ev.choices| > 0 {
        result := ev.choices[0].message.content;
        toolID := ev.choices[0].message.toolID;
        if toolID == "" {
          toolID := ev.choices[0].delta.toolID;
        }
      }
      var name := if toolID in toolNames then toolNames[toolID] else "";
      if name == "" {
        name := lastToolName;
      }
      var e := EmitEvent(ToolEnd(name, Clip(result)));
      out := [e];
    }

    method TakeError(ev: Response, typ: string) returns (out: seq<RunEvent>)
      modifies this
      ensures Out(St(), out) == HandleError(old(St()), ev, typ)
    {
      var msg := "unknown error";
      if ev.error.Some? && ev.error.value.message != "" {
        msg := ev.error.value.message;
      }
      var e := EmitEvent(Error(Clip(msg), typ));
      out := [e];
    }

    method Normalize(ev: Response) returns (out: seq<RunEvent>)
      modifies this
      ensures Out(St(), out) == Handle(old(St()), ev)
    {
      if ev.error.Some? {
        out := TakeError(ev, ev.error.value.typ);
        return;
      }
      match ev.kind
      case Chunk => out := TakeChunk(ev);
      case Completion => out := TakeCompletion(ev);
      case ToolResponse => out := TakeToolResponse(ev);
      case ErrorObject => out := TakeError(ev, "model_error");
      case Plumbing => out := [];
    }

    method NormalizeAll(evs: seq<Response>) returns (out: seq<RunEvent>)
      modifies this
      ensures Out(St(), out) == HandleAll(old(St()), evs)
    {
      out := [];
      for i := 0 to |evs|
        invariant Out(St(), out) == HandleAll(old(St()), evs[..i])
      {
        assert evs[..i + 1][..i] == evs[..i];
        var more := Normalize(evs[i]);
        out := out + more;
      }
      assert evs[..|evs|] == evs;
    }
  }
}
