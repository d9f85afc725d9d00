// What the normalizer's events say: the text of a model call, a tool's result
// and an error's message.
module EventText {
  import opened Wrappers
  import opened Frames
  import opened Normalizer
  import opened CallUsage
  import opened ToolNames

  // ---- Tool ends ----

  /** A tool response makes one tool end, with the text of its first choice's message. */
  lemma ToolEndSays(st: State, r: Response)
    requires r.kind.ToolResponse? && r.error.None?
    ensures var es := Handle(st, r).events;
            && |es| == 1 && es[0].body.ToolEnd?
            && IsClipOf(es[0].body.result, if r.choices == [] then "" else r.choices[0].message.content)
  {
  }

  /** The name of the last tool start, or the given one if there is none. */
  function LastStart(es: seq<RunEvent>, otherwise: string): string {
    if es == [] then otherwise
    else if es[|es| - 1].body.ToolStart? then es[|es| - 1].body.name
    else LastStart(es[..|es| - 1], otherwise)
  }

  lemma {:induction false} LastStartConcat(a: seq<RunEvent>, b: seq<RunEvent>, otherwise: string)
    ensures LastStart(a + b, otherwise) == LastStart(b, LastStart(a, otherwise))
  {
    if b == [] {
      assert a + b == a;
    } else {
      assert (a + b)[..|a + b| - 1] == a + b[..|b| - 1];
      LastStartConcat(a, b[..|b| - 1], otherwise);
    }
  }

  /** The name kept for ends that name no known call is that of the last start emitted. */
  predicate KeepsLast(st: State, o: Out) {
    o.st.lastToolName == LastStart(o.events, st.lastToolName)
  }

  lemma ThenKeepsLast(st: State, o: Out, next: Out)
    requires KeepsLast(st, o) && KeepsLast(o.st, next)
    ensures KeepsLast(st, Then(o, next))
  {
    LastStartConcat(o.events, next.events, st.lastToolName);
  }

  lemma {:induction false} CallsKeepLast(st: State, tcs: seq<ToolCall>)
    ensures KeepsLast(st, DeltaCalls(st, tcs)) && KeepsLast(st, FinalCalls(st, tcs))
  {
    if tcs != [] {
      var front, last := tcs[..|tcs| - 1], tcs[|tcs| - 1];
      CallsKeepLast(st, front);
      ThenKeepsLast(st, DeltaCalls(st, front), DeltaCall(DeltaCalls(st, front).st, last));
      ThenKeepsLast(st, FinalCalls(st, front), FinalCall(FinalCalls(st, front).st, last));
    }
  }

  lemma {:induction false} ChoicesKeepLast(st: State, chs: seq<Choice>)
    ensures KeepsLast(st, DeltaChoices(st, chs)) && KeepsLast(st, FinalChoices(st, chs))
  {
    if chs != [] {
      var front, last := chs[..|chs| - 1], chs[|chs| - 1];
      var d, f := DeltaChoices(st, front), FinalChoices(st, front);
      ChoicesKeepLast(st, front);
      CallsKeepLast(d.st.(content := d.st.content + last.delta.content), last.delta.toolCalls);
      CallsKeepLast(f.st, last.message.toolCalls);
      ThenKeepsLast(st, d, DeltaChoice(d.st, last));
      ThenKeepsLast(st, f, FinalCalls(f.st, last.message.toolCalls));
    }
  }

  lemma ChunkKeepsLast(st: State, ev: Response)
    ensures KeepsLast(st, HandleChunk(st, ev))
  {
    var o1 := StartModel(st, ev.model);
    var more := DeltaChoices(o1.st, ev.choices);
    ChoicesKeepLast(o1.st, ev.choices);
    ThenKeepsLast(st, o1, more);
    var o3 := Out(SetUsage(more.st, ev.usage), Then(o1, more).events);
    ThenKeepsLast(st, o3, EndModel(o3.st));
  }

  lemma CompletionKeepsLast(st: State, ev: Response)
    ensures KeepsLast(st, HandleCompletion(st, ev))
  {
    var o1 := StartModel(st, ev.model);
    var mid := o1.st.(content := o1.st.content + if st.inModel then "" else MessageText(ev.choices));
    var more := FinalChoices(mid, ev.choices);
    ChoicesKeepLast(mid, ev.choices);
    ThenKeepsLast(st, o1, more);
    var o3 := Out(SetUsage(more.st, ev.usage), Then(o1, more).events);
    ThenKeepsLast(st, o3, EndModel(o3.st));
  }

  lemma HandleKeepsLast(st: State, ev: Response)
    ensures KeepsLast(st, Handle(st, ev))
  {
    if ev.error.None? && ev.kind.Chunk? {
      ChunkKeepsLast(st, ev);
    } else if ev.error.None? && ev.kind.Completion? {
      CompletionKeepsLast(st, ev);
    } else if Handle(st, ev).events != [] {
      assert Handle(st, ev).events[..0] == [];
    }
  }

  lemma {:induction false} RunKeepsLast(st: State, evs: seq<Response>)
    ensures KeepsLast(st, HandleAll(st, evs))
  {
    if evs != [] {
      var o, ev := HandleAll(st, evs[..|evs| - 1]), evs[|evs| - 1];
      RunKeepsLast(st, evs[..|evs| - 1]);
      HandleKeepsLast(o.st, ev);
      ThenKeepsLast(st, o, Handle(o.st, ev));
    }
  }

  /** The frame carries a named call under that id, in the part the normalizer reads. */
  predicate UsesId(ev: Response, id: string) {
    exists ch :: ch in ev.choices && UsedIn(CallsOf(ev.kind, ch), id)
  }

  lemma UnusedKeepsName(st: State, ev: Response, id: string)
    requires !UsesId(ev, id)
    ensures NameOf(Handle(st, ev).st, id) == NameOf(st, id)
  {
    if ev.error.None? {
      var begun := StartModel(st, ev.model).st;
      if ev.kind.Chunk? {
        DeltaChoicesKeepName(begun, ev.choices, id);
      } else if ev.kind.Completion? {
        FinalChoicesKeepName(begun.(content := begun.content + if st.inModel then "" else MessageText(ev.choices)), ev.choices, id);
      }
    }
  }

  lemma {:induction false} NeverNamed(evs: seq<Response>, id: string)
    requires forall ev :: ev in evs ==> !UsesId(ev, id)
    ensures NameOf(HandleAll(INITIAL, evs).st, id) == ""
  {
    if evs != [] {
      NeverNamed(evs[..|evs| - 1], id);
      UnusedKeepsName(HandleAll(INITIAL, evs[..|evs| - 1]).st, evs[|evs| - 1], id);
    }
  }

  /** A response to a call the run never named ends under the name of the last tool start in the trace, if there is one. */
  lemma UnknownEndTakesLastName(evs: seq<Response>, r: Response)
    requires r.kind.ToolResponse? && r.error.None?
    requires forall ev :: ev in evs ==> !UsesId(ev, AnsweredID(r))
    ensures var o := HandleAll(INITIAL, evs);
            var es := Handle(o.st, r).events;
            |es| == 1 && es[0].body.ToolEnd? && es[0].body.name == LastStart(o.events, "")
  {
    NeverNamed(evs, AnsweredID(r));
    RunKeepsLast(INITIAL, evs);
  }

  // ---- Errors and plumbing ----

  /** A frame with an error, or of the error kind, makes one error event with its message and type. */
  lemma ErrorSays(st: State, ev: Response)
    requires ev.error.Some? || ev.kind.ErrorObject?
    ensures var es := Handle(st, ev).events;
            && |es| == 1 && es[0].body.Error?
            && (ev.error.Some? ==> es[0].body.typ == ev.error.value.typ)
            && (ev.error.Some? && ev.error.value.message != "" ==> IsClipOf(es[0].body.message, ev.error.value.message))
            && (ev.error.None? ==> es[0].body.typ == "model_error")
            && (ev.error.None? || ev.error.value.message == "" ==> es[0].body.message == "unknown error")
  {
  }

  /** Frames of the framework's own leave no trace. */
  lemma PlumbingIsSilent(st: State, ev: Response)
    requires ev.error.None? && ev.kind.Plumbing?
    ensures Handle(st, ev) == Out(st, [])
  {
  }

  // ---- Model ends ----

  /** The frame streams a piece of a model call. */
  predicate Streams(ev: Response) {
    ev.error.None? && ev.kind.Chunk?
  }

  /** The text streamed in chunks, all choices of each in order. */
  function Streamed(evs: seq<Response>): string {
    if evs == [] then ""
    else Streamed(evs[..|evs| - 1]) + if Streams(evs[|evs| - 1]) then DeltasOf(evs[|evs| - 1].choices) else ""
  }

  /** The model named by the first streamed frame, if any. */
  function FirstStreamed(evs: seq<Response>): Option<string> {
    if evs == [] then None
    else if Streams(evs[0]) then Some(evs[0].model)
    else FirstStreamed(evs[1..])
  }

  /** The parts of the state a model call's text is made of. */
  function TextOf(st: State): (bool, string, string) {
    (st.inModel, st.modelName, st.content)
  }

  lemma {:induction false} CallsKeepText(st: State, tcs: seq<ToolCall>)
    ensures TextOf(DeltaCalls(st, tcs).st) == TextOf(FinalCalls(st, tcs).st) == TextOf(st)
  {
    if tcs != [] {
      CallsKeepText(st, tcs[..|tcs| - 1]);
    }
  }

  lemma {:induction false} DeltasAddText(st: State, chs: seq<Choice>)
    ensures TextOf(DeltaChoices(st, chs).st) == (st.inModel, st.modelName, st.content + DeltasOf(chs))
  {
    if chs == [] {
      assert st.content + "" == st.content;
    } else {
      var o, last := DeltaChoices(st, chs[..|chs| - 1]), chs[|chs| - 1];
      DeltasAddText(st, chs[..|chs| - 1]);
      CallsKeepText(o.st.(content := o.st.content + last.delta.content), last.delta.toolCalls);
      assert st.content + DeltasOf(chs[..|chs| - 1]) + last.delta.content == st.content + DeltasOf(chs);
    }
  }

  lemma {:induction false} FinalsKeepText(st: State, chs: seq<Choice>)
    ensures TextOf(FinalChoices(st, chs).st) == TextOf(st)
  {
    if chs != [] {
      FinalsKeepText(st, chs[..|chs| - 1]);
      CallsKeepText(FinalChoices(st, chs[..|chs| - 1]).st, chs[|chs| - 1].message.toolCalls);
    }
  }

  lemma {:induction false} MessageTextIs(chs: seq<Choice>)
    ensures MessageText(chs) == MessagesOf(chs)
  {
    if chs != [] {
      MessageTextIs(chs[..|chs| - 1]);
    }
  }

  /** What a frame that ends no call does to the call's text. */
  lemma OpenFrameText(st: State, ev: Response)
    requires !CallEnds(ev)
    ensures var begun := if Streams(ev) && !st.inModel then (true, ev.model) else (st.inModel, st.modelName);
            TextOf(Handle(st, ev).st) == (begun.0, begun.1, st.content + if Streams(ev) then DeltasOf(ev.choices) else "")
  {
    if Streams(ev) {
      DeltasAddText(StartModel(st, ev.model).st, ev.choices);
    } else {
      assert st.content + "" == st.content;
    }
  }

  lemma {:induction false} FirstStreamedGrows(evs: seq<Response>, ev: Response)
    ensures FirstStreamed(evs + [ev])
         == if FirstStreamed(evs).Some? then FirstStreamed(evs) else if Streams(ev) then Some(ev.model) else None
  {
    if evs == [] {
      assert evs + [ev] == [ev];
    } else {
      assert (evs + [ev])[1..] == evs[1..] + [ev];
      FirstStreamedGrows(evs[1..], ev);
    }
  }

  /** Frames that end no call leave open the call they started, with the text they streamed. */
  lemma {:induction false} OpenFramesText(st: State, evs: seq<Response>)
    requires !st.inModel && st.content == "" && forall i :: 0 <= i < |evs| ==> !CallEnds(evs[i])
    ensures var t := HandleAll(st, evs).st;
            && (t.inModel <==> FirstStreamed(evs).Some?)
            && (t.inModel ==> t.modelName == FirstStreamed(evs).value)
            && t.content == Streamed(evs)
  {
    if evs != [] {
      var front, ev := evs[..|evs| - 1], evs[|evs| - 1];
      assert evs == front + [ev];
      OpenFramesText(st, front);
      OpenFrameText(HandleAll(st, front).st, ev);
      FirstStreamedGrows(front, ev);
    }
  }

  /** What a frame that ends a call says last. */
  lemma EndFrameSays(st: State, ev: Response)
    requires CallEnds(ev)
    ensures var o := Handle(st, ev);
            && !o.st.inModel && o.st.content == ""
            && o.events != [] && o.events[|o.events| - 1].body.ModelEnd?
            && var e := o.events[|o.events| - 1].body;
               && e.model == (if st.inModel then st.modelName else ev.model)
               && (e.tokensIn, e.tokensOut) == (o.st.tokensIn, o.st.tokensOut)
               && IsClipOf(e.content, st.content + if ev.kind.Chunk? then DeltasOf(ev.choices)
                                                    else if st.inModel then "" else MessagesOf(ev.choices))
  {
    var begun := StartModel(st, ev.model).st;
    if ev.kind.Chunk? {
      DeltasAddText(begun, ev.choices);
    } else {
      MessageTextIs(ev.choices);
      FinalsKeepText(begun.(content := begun.content + if st.inModel then "" else MessageText(ev.choices)), ev.choices);
    }
  }

  /** Between calls the normalizer holds no text. */
  lemma {:induction false} NoTextBetweenCalls(evs: seq<Response>)
    ensures var st := HandleAll(INITIAL, evs).st; !st.inModel ==> st.content == ""
  {
    if evs != [] {
      var st, ev := HandleAll(INITIAL, evs[..|evs| - 1]).st, evs[|evs| - 1];
      NoTextBetweenCalls(evs[..|evs| - 1]);
      if CallEnds(ev) {
        EndFrameSays(st, ev);
      } else {
        OpenFrameText(st, ev);
      }
    }
  }

  /**
   * The text a call should end with: what was streamed, and for a call that is a
   * completion alone, the text of its messages.
   */
  function CallText(cs: seq<Response>): string
    requires cs != []
  {
    var front, last := cs[..|cs| - 1], cs[|cs| - 1];
    if last.kind.Chunk? || FirstStreamed(front).Some? then Streamed(cs) else MessagesOf(last.choices)
  }

  lemma {:induction false} NothingStreamed(evs: seq<Response>)
    ensures FirstStreamed(evs).None? ==> Streamed(evs) == ""
  {
    if evs != [] {
      var front, ev := evs[..|evs| - 1], evs[|evs| - 1];
      NothingStreamed(front);
      FirstStreamedGrows(front, ev);
      assert evs == front + [ev];
    }
  }

  lemma CallTextOf(front: seq<Response>, last: Response)
    ensures CallText(front + [last])
         == Streamed(front) + if last.kind.Chunk? then (if last.error.None? then DeltasOf(last.choices) else "")
                              else if FirstStreamed(front).Some? then "" else MessagesOf(last.choices)
  {
    var cs := front + [last];
    assert cs[..|cs| - 1] == front;
    NothingStreamed(front);
    assert "" + MessagesOf(last.choices) == MessagesOf(last.choices) && Streamed(front) + "" == Streamed(front);
  }

  /** e is the model end a call with the given model, text and usage should have. */
  predicate Says(e: Body, model: string, text: string, usage: (int, int)) {
    e.ModelEnd? && e.model == model && IsClipOf(e.content, text) && (e.tokensIn, e.tokensOut) == usage
  }

  predicate LastSays(es: seq<RunEvent>, model: string, text: string, usage: (int, int)) {
    es != [] && Says(es[|es| - 1].body, model, text, usage)
  }

  function ModelOf(front: seq<Response>, last: Response): string {
    if FirstStreamed(front).Some? then FirstStreamed(front).value else last.model
  }

  lemma RunThenFrame(st: State, front: seq<Response>, last: Response)
    ensures HandleAll(st, front + [last]) == Then(HandleAll(st, front), Handle(HandleAll(st, front).st, last))
  {
    assert (front + [last])[..|front|] == front;
  }

  lemma ThenLastSays(o: Out, next: Out, model: string, text: string, usage: (int, int))
    requires LastSays(next.events, model, text, usage)
    ensures LastSays(Then(o, next).events, model, text, usage)
  {
  }

  /** An end frame, met in a state whose open call and text are those of the frames before it. */
  lemma EndFrameSaysCall(st: State, front: seq<Response>, last: Response)
    requires CallEnds(last) && st.content == Streamed(front)
    requires st.inModel <==> FirstStreamed(front).Some?
    requires st.inModel ==> st.modelName == FirstStreamed(front).value
    ensures var o := Handle(st, last);
            LastSays(o.events, ModelOf(front, last), CallText(front + [last]), (o.st.tokensIn, o.st.tokensOut))
  {
    EndFrameSays(st, last);
    CallTextOf(front, last);
  }

  lemma CallEndsSaying(st: State, front: seq<Response>, last: Response)
    requires !st.inModel && st.content == "" && CallEnds(last) && forall i :: 0 <= i < |front| ==> !CallEnds(front[i])
    ensures var o := HandleAll(st, front + [last]);
            LastSays(o.events, ModelOf(front, last), CallText(front + [last]), (o.st.tokensIn, o.st.tokensOut))
  {
    var t := HandleAll(st, front);
    OpenFramesText(st, front);
    EndFrameSaysCall(t.st, front, last);
    var next := Handle(t.st, last);
    RunThenFrame(st, front, last);
    ThenLastSays(t, next, ModelOf(front, last), CallText(front + [last]), (next.st.tokensIn, next.st.tokensOut));
  }

  /**
   * In any run, a call that begins between calls ends with a model end that names
   * the model of its first frame, has the text of the call and of no other, cut at
   * 800 characters, and the last usage of the run.
   */
  lemma ModelEndSays(evs: seq<Response>, cs: seq<Response>)
    requires OneCall(cs) && !HandleAll(INITIAL, evs).st.inModel
    ensures LastSays(HandleAll(HandleAll(INITIAL, evs).st, cs).events, ModelOf(cs[..|cs| - 1], cs[|cs| - 1]), CallText(cs),
                     UsageOr(OwnUsage(cs), UsageOr(OwnUsage(evs), (0, 0))))
  {
    var st, front, last := HandleAll(INITIAL, evs).st, cs[..|cs| - 1], cs[|cs| - 1];
    assert cs == front + [last];
    NoTextBetweenCalls(evs);
    CallEndsSaying(st, front, last);
    UsageIsLastSeen(INITIAL, evs);
    UsageIsLastSeen(st, cs);
  }
}
