// The metrics fold and status decision of internal/harness/builder/builder.go,
// and the bookkeeping facts that tie it to the event normalizer.
module Metrics {
  import opened Wrappers
  import opened Frames
  import opened Normalizer

  function Starts(es: seq<RunEvent>): nat {
    if es == [] then 0 else (if es[0].body.ModelStart? then 1 else 0) + Starts(es[1..])
  }

  function Ends(es: seq<RunEvent>): nat {
    if es == [] then 0 else (if es[0].body.ModelEnd? then 1 else 0) + Ends(es[1..])
  }

  function Tools(es: seq<RunEvent>): nat {
    if es == [] then 0 else (if es[0].body.ToolStart? then 1 else 0) + Tools(es[1..])
  }

  function InTokens(es: seq<RunEvent>): int {
    if es == [] then 0 else (if es[0].body.ModelEnd? then es[0].body.tokensIn else 0) + InTokens(es[1..])
  }

  function OutTokens(es: seq<RunEvent>): int {
    if es == [] then 0 else (if es[0].body.ModelEnd? then es[0].body.tokensOut else 0) + OutTokens(es[1..])
  }

  /**
   * Reads a trace with a model call open or not: a start while one is open, or
   * an end while none is, breaks the bracketing; otherwise says what is open last.
   */
  function Brackets(open: bool, es: seq<RunEvent>): Option<bool>
    decreases es
  {
    if es == [] then Some(open)
    else if es[0].body.ModelStart? then (if open then None else Brackets(true, es[1..]))
    else if es[0].body.ModelEnd? then (if open then Brackets(false, es[1..]) else None)
    else Brackets(open, es[1..])
  }

  lemma {:induction false} FoldsConcat(a: seq<RunEvent>, b: seq<RunEvent>)
    ensures Starts(a + b) == Starts(a) + Starts(b)
    ensures Ends(a + b) == Ends(a) + Ends(b)
    ensures Tools(a + b) == Tools(a) + Tools(b)
    ensures InTokens(a + b) == InTokens(a) + InTokens(b)
    ensures OutTokens(a + b) == OutTokens(a) + OutTokens(b)
  {
    if a == [] {
      assert a + b == b;
    } else {
      assert (a + b)[1..] == a[1..] + b;
      FoldsConcat(a[1..], b);
    }
  }

  /** What a reader of the trace knows: whether a call is open, the counts so far, and the last numbers. */
  datatype Ledger = Ledger(open: bool, modelCalls: int, toolCalls: int, inputTokens: int, outputTokens: int,
                           seqNo: int, step: int)

  function LedgerOf(st: State): Ledger {
    Ledger(st.inModel, st.modelCalls, st.toolCalls, st.inputTokens, st.outputTokens, st.seqNo, st.step)
  }

  /** The ledger after one more event, if that has the next numbers and keeps the bracketing. */
  function Enter(l: Ledger, e: RunEvent): Option<Ledger> {
    var next := l.(seqNo := l.seqNo + 1, step := l.step + 1);
    if e.seqNo != next.seqNo || e.step != next.step then None
    else
      match e.body
      case ModelStart(_) => if l.open then None else Some(next.(open := true, modelCalls := l.modelCalls + 1))
      case ModelEnd(_, tokensIn, tokensOut, _) =>
        if l.open
        then Some(next.(open := false, inputTokens := l.inputTokens + tokensIn, outputTokens := l.outputTokens + tokensOut))
        else None
      case ToolStart(_, _) => Some(next.(toolCalls := l.toolCalls + 1))
      case _ => Some(next)
  }

  function EnterAll(l: Ledger, es: seq<RunEvent>): Option<Ledger>
    decreases es
  {
    if es == [] then Some(l)
    else
      match Enter(l, es[0])
      case Some(m) => EnterAll(m, es[1..])
      case None => None
  }

  /** The state kept pace with the events emitted since st. */
  predicate Tracks(st: State, o: Out) {
    EnterAll(LedgerOf(st), o.events) == Some(LedgerOf(o.st))
  }

  lemma {:induction false} EnterConcat(l: Ledger, a: seq<RunEvent>, b: seq<RunEvent>)
    requires EnterAll(l, a).Some?
    ensures EnterAll(l, a + b) == EnterAll(EnterAll(l, a).value, b)
    decreases a
  {
    if a == [] {
      assert a + b == b;
    } else {
      assert (a + b)[1..] == a[1..] + b;
      EnterConcat(Enter(l, a[0]).value, a[1..], b);
    }
  }

  lemma TracksThen(st: State, o: Out, next: Out)
    requires Tracks(st, o) && Tracks(o.st, next)
    ensures Tracks(st, Then(o, next))
  {
    EnterConcat(LedgerOf(st), o.events, next.events);
  }

  /** What a ledger that could be kept says about the events. */
  lemma {:induction false} LedgerMeans(l: Ledger, es: seq<RunEvent>)
    requires EnterAll(l, es).Some?
    ensures var m := EnterAll(l, es).value;
            && Brackets(l.open, es) == Some(m.open)
            && m.modelCalls == l.modelCalls + Starts(es) && m.toolCalls == l.toolCalls + Tools(es)
            && m.inputTokens == l.inputTokens + InTokens(es) && m.outputTokens == l.outputTokens + OutTokens(es)
            && m.seqNo == l.seqNo + |es| && m.step == l.step + |es|
    ensures forall i :: 0 <= i < |es| ==> es[i].seqNo == l.seqNo + 1 + i && es[i].step == l.step + 1 + i
    decreases es
  {
    if es != [] {
      LedgerMeans(Enter(l, es[0]).value, es[1..]);
      assert forall i :: 0 < i < |es| ==> es[i] == es[1..][i - 1];
    }
  }

  lemma TracksEmit(st: State, st': State, body: Body)
    requires Enter(LedgerOf(st), Emit(st', body).events[0]) == Some(LedgerOf(Emit(st', body).st))
    ensures Tracks(st, Emit(st', body))
  {
    assert Emit(st', body).events[1..] == [];
  }

  lemma StartModelTracks(st: State, model: string)
    ensures Tracks(st, StartModel(st, model)) && StartModel(st, model).st.inModel
  {
    if !st.inModel {
      TracksEmit(st, st.(inModel := true, modelCalls := st.modelCalls + 1, modelName := model), ModelStart(model));
    }
  }

  lemma EndModelTracks(st: State)
    requires st.inModel
    ensures Tracks(st, EndModel(st))
  {
    TracksEmit(st, st.(inModel := false, content := "", inputTokens := st.inputTokens + st.tokensIn,
                       outputTokens := st.outputTokens + st.tokensOut),
               ModelEnd(st.modelName, st.tokensIn, st.tokensOut, Clip(st.content)));
  }

  lemma StartToolTracks(st0: State, st: State, tc: ToolCall, args: string)
    requires st == st0.(seenToolIDs := st.seenToolIDs)
    ensures Tracks(st0, StartTool(st, tc, args)) && StartTool(st, tc, args).st.inModel == st0.inModel
  {
    TracksEmit(st0, st.(toolCalls := st.toolCalls + 1, lastToolName := tc.name,
                        toolNames := st.toolNames[tc.id := tc.name]),
               ToolStart(tc.name, args));
  }

  lemma {:induction false} DeltaCallsTrack(st: State, tcs: seq<ToolCall>)
    ensures Tracks(st, DeltaCalls(st, tcs)) && DeltaCalls(st, tcs).st.inModel == st.inModel
  {
    if tcs != [] {
      var o, tc := DeltaCalls(st, tcs[..|tcs| - 1]), tcs[|tcs| - 1];
      DeltaCallsTrack(st, tcs[..|tcs| - 1]);
      if tc.name != "" {
        StartToolTracks(o.st, if tc.id != "" then o.st.(seenToolIDs := o.st.seenToolIDs + {tc.id}) else o.st, tc, "");
      }
      TracksThen(st, o, DeltaCall(o.st, tc));
    }
  }

  lemma {:induction false} DeltaChoicesTrack(st: State, chs: seq<Choice>)
    ensures Tracks(st, DeltaChoices(st, chs)) && DeltaChoices(st, chs).st.inModel == st.inModel
  {
    if chs != [] {
      var o, ch := DeltaChoices(st, chs[..|chs| - 1]), chs[|chs| - 1];
      DeltaChoicesTrack(st, chs[..|chs| - 1]);
      DeltaCallsTrack(o.st.(content := o.st.content + ch.delta.content), ch.delta.toolCalls);
      TracksThen(st, o, DeltaChoice(o.st, ch));
    }
  }

  lemma {:induction false} FinalCallsTrack(st: State, tcs: seq<ToolCall>)
    ensures Tracks(st, FinalCalls(st, tcs)) && FinalCalls(st, tcs).st.inModel == st.inModel
  {
    if tcs != [] {
      var o, tc := FinalCalls(st, tcs[..|tcs| - 1]), tcs[|tcs| - 1];
      FinalCallsTrack(st, tcs[..|tcs| - 1]);
      if !(tc.name == "" || (tc.id != "" && tc.id in o.st.seenToolIDs)) {
        StartToolTracks(o.st, if tc.id != "" then o.st.(seenToolIDs := o.st.seenToolIDs + {tc.id}) else o.st, tc, tc.args);
      }
      TracksThen(st, o, FinalCall(o.st, tc));
    }
  }

  lemma {:induction false} FinalChoicesTrack(st: State, chs: seq<Choice>)
    ensures Tracks(st, FinalChoices(st, chs)) && FinalChoices(st, chs).st.inModel == st.inModel
  {
    if chs != [] {
      var o, tcs := FinalChoices(st, chs[..|chs| - 1]), chs[|chs| - 1].message.toolCalls;
      FinalChoicesTrack(st, chs[..|chs| - 1]);
      FinalCallsTrack(o.st, tcs);
      TracksThen(st, o, FinalCalls(o.st, tcs));
    }
  }

  lemma ChunkTracks(st: State, ev: Response)
    ensures Tracks(st, HandleChunk(st, ev))
  {
    var o1 := StartModel(st, ev.model);
    StartModelTracks(st, ev.model);
    DeltaChoicesTrack(o1.st, ev.choices);
    TracksThen(st, o1, DeltaChoices(o1.st, ev.choices));
    var o2 := Then(o1, DeltaChoices(o1.st, ev.choices));
    var o3 := Out(SetUsage(o2.st, ev.usage), o2.events);
    if ev.done {
      EndModelTracks(o3.st);
      TracksThen(st, o3, EndModel(o3.st));
    }
  }

  lemma CompletionTracks(st: State, ev: Response)
    ensures Tracks(st, HandleCompletion(st, ev))
  {
    var o1 := StartModel(st, ev.model);
    var text := if st.inModel then "" else MessageText(ev.choices);
    var mid := o1.st.(content := o1.st.content + text);
    StartModelTracks(st, ev.model);
    FinalChoicesTrack(mid, ev.choices);
    TracksThen(st, o1, FinalChoices(mid, ev.choices));
    var o2 := Then(o1, FinalChoices(mid, ev.choices));
    var o3 := Out(SetUsage(o2.st, ev.usage), o2.events);
    EndModelTracks(o3.st);
    TracksThen(st, o3, EndModel(o3.st));
  }

  lemma HandleTracks(st: State, ev: Response)
    ensures Tracks(st, Handle(st, ev))
  {
    if ev.error.Some? || ev.kind.ErrorObject? || ev.kind.ToolResponse? {
      var body := Handle(st, ev).events[0].body;
      TracksEmit(st, st, body);
    } else if ev.kind.Chunk? {
      ChunkTracks(st, ev);
    } else if ev.kind.Completion? {
      CompletionTracks(st, ev);
    }
  }

  /**
   * Over any frames, model_start and model_end alternate, a call is open exactly
   * when inModel says so, the counters are the folds over the events, and the
   * sequence and step numbers count the events.
   */
  lemma {:induction false} RunTracks(st: State, evs: seq<Response>)
    ensures var o := HandleAll(st, evs);
            && Brackets(st.inModel, o.events) == Some(o.st.inModel)
            && o.st.modelCalls == st.modelCalls + Starts(o.events) && o.st.toolCalls == st.toolCalls + Tools(o.events)
            && o.st.inputTokens == st.inputTokens + InTokens(o.events)
            && o.st.outputTokens == st.outputTokens + OutTokens(o.events)
            && o.st.seqNo == st.seqNo + |o.events| && o.st.step == st.step + |o.events|
            && forall i :: 0 <= i < |o.events|
                 ==> o.events[i].seqNo == st.seqNo + 1 + i && o.events[i].step == st.step + 1 + i
  {
    LedgerKept(st, evs);
    LedgerMeans(LedgerOf(st), HandleAll(st, evs).events);
  }

  lemma {:induction false} LedgerKept(st: State, evs: seq<Response>)
    ensures Tracks(st, HandleAll(st, evs))
  {
    if evs != [] {
      var o := HandleAll(st, evs[..|evs| - 1]);
      LedgerKept(st, evs[..|evs| - 1]);
      HandleTracks(o.st, evs[|evs| - 1]);
      TracksThen(st, o, Handle(o.st, evs[|evs| - 1]));
    }
  }

  datatype RunMetrics = RunMetrics(modelCalls: int, toolCalls: int, inputTokens: int, outputTokens: int)

  /** The event loop of Harness.Run: what it counts, and whether an error went by. */
  method CountEvents(es: seq<RunEvent>) returns (m: RunMetrics, agentErrored: bool)
    ensures m == RunMetrics(Ends(es), Tools(es), InTokens(es), OutTokens(es))
    ensures agentErrored <==> exists i :: 0 <= i < |es| && es[i].body.Error?
  {
    m, agentErrored := RunMetrics(0, 0, 0, 0), false;
    for i := 0 to |es|
      invariant m == RunMetrics(Ends(es[..i]), Tools(es[..i]), InTokens(es[..i]), OutTokens(es[..i]))
      invariant agentErrored <==> exists j :: 0 <= j < i && es[j].body.Error?
    {
      assert es[..i + 1] == es[..i] + [es[i]];
      FoldsConcat(es[..i], [es[i]]);
      match es[i].body
      case ModelEnd(_, tokensIn, tokensOut, _) =>
        m := m.(modelCalls := m.modelCalls + 1,
                inputTokens := m.inputTokens + tokensIn,
                outputTokens := m.outputTokens + tokensOut);
      case ToolStart(_, _) =>
        m := m.(toolCalls := m.toolCalls + 1);
      case Error(_, _) =>
        agentErrored := true;
      case _ =>
    }
    assert es[..|es|] == es;
  }

  lemma {:induction false} StartsExceedEnds(open: bool, es: seq<RunEvent>)
    requires Brackets(open, es).Some?
    ensures Starts(es) + (if open then 1 else 0) == Ends(es) + if Brackets(open, es).value then 1 else 0
    decreases es
  {
    if es != [] {
      StartsExceedEnds(if es[0].body.ModelStart? then true else if es[0].body.ModelEnd? then false else open, es[1..]);
    }
  }

  /**
   * What the builder counts from the trace is what the normalizer counted while
   * writing it, except that a call still open is not counted by the builder.
   */
  lemma BuilderAgrees(evs: seq<Response>)
    ensures var o := HandleAll(INITIAL, evs);
            && Ends(o.events) == o.st.modelCalls - (if o.st.inModel then 1 else 0)
            && Tools(o.events) == o.st.toolCalls
            && InTokens(o.events) == o.st.inputTokens
            && OutTokens(o.events) == o.st.outputTokens
  {
    RunTracks(INITIAL, evs);
    StartsExceedEnds(false, HandleAll(INITIAL, evs).events);
  }

  datatype Status = Passed | Failed | Cancelled

  /** The success rules; verification is None when none is configured. */
  function ComputeStatus(agentErrored: bool, verification: Option<bool>, workspaceChanged: bool,
                         requireVerification: bool, requireChange: bool, cancelled: bool): (r: Status)
    ensures r.Cancelled? <==> cancelled
    ensures r.Passed? <==> !cancelled && !agentErrored
                           && (requireVerification ==> verification != Some(false))
                           && (requireChange ==> workspaceChanged)
  {
    if cancelled then Cancelled
    else if agentErrored then Failed
    else if requireVerification && verification.Some? && !verification.value then Failed
    else if requireChange && !workspaceChanged then Failed
    else Passed
  }
}
