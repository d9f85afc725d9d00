// A tool end carries the name of its own start, over whole runs: which frames give
// an id its name, which leave it alone, and what a tool response to that id says
// then.
module ToolNames {
  import opened Wrappers
  import opened Frames
  import opened Normalizer
  import opened Correlation

  /** The call would start under that id. */
  predicate Uses(tc: ToolCall, id: string) {
    tc.id == id && tc.name != ""
  }

  predicate UsedIn(tcs: seq<ToolCall>, id: string) {
    exists tc :: tc in tcs && Uses(tc, id)
  }

  /** The tool calls a frame of that kind is read for. */
  function CallsOf(kind: FrameKind, ch: Choice): seq<ToolCall> {
    if kind.Chunk? then ch.delta.toolCalls else ch.message.toolCalls
  }

  /** The name kept for an id, empty when there is none. */
  function NameOf(st: State, id: string): string {
    if id in st.toolNames then st.toolNames[id] else ""
  }

  // ---- Frames that leave a name alone ----

  lemma {:induction false} CallsKeepName(st: State, tcs: seq<ToolCall>, id: string)
    requires !UsedIn(tcs, id)
    ensures NameOf(DeltaCalls(st, tcs).st, id) == NameOf(st, id)
    ensures NameOf(FinalCalls(st, tcs).st, id) == NameOf(st, id)
  {
    if tcs != [] {
      var front, last := tcs[..|tcs| - 1], tcs[|tcs| - 1];
      assert tcs == front + [last];
      assert last in tcs;
      assert !Uses(last, id);
      CallsKeepName(st, front, id);
    }
  }

  lemma {:induction false} DeltaChoicesKeepName(st: State, chs: seq<Choice>, id: string)
    requires forall ch :: ch in chs ==> !UsedIn(ch.delta.toolCalls, id)
    ensures NameOf(DeltaChoices(st, chs).st, id) == NameOf(st, id)
  {
    if chs != [] {
      var o, last := DeltaChoices(st, chs[..|chs| - 1]), chs[|chs| - 1];
      DeltaChoicesKeepName(st, chs[..|chs| - 1], id);
      CallsKeepName(o.st.(content := o.st.content + last.delta.content), last.delta.toolCalls, id);
    }
  }

  /** A final call under an id already seen is skipped, whatever its name. */
  lemma {:induction false} SeenCallsKeepName(st: State, tcs: seq<ToolCall>, id: string)
    requires id != "" && id in st.seenToolIDs
    ensures NameOf(FinalCalls(st, tcs).st, id) == NameOf(st, id)
  {
    if tcs != [] {
      SeenCallsKeepName(st, tcs[..|tcs| - 1], id);
      FinalCallsSeen(st, tcs[..|tcs| - 1]);
    }
  }

  lemma {:induction false} FinalChoicesKeepName(st: State, chs: seq<Choice>, id: string)
    requires (id != "" && id in st.seenToolIDs) || forall ch :: ch in chs ==> !UsedIn(ch.message.toolCalls, id)
    ensures NameOf(FinalChoices(st, chs).st, id) == NameOf(st, id)
  {
    if chs != [] {
      var o, last := FinalChoices(st, chs[..|chs| - 1]), chs[|chs| - 1];
      FinalChoicesKeepName(st, chs[..|chs| - 1], id);
      FinalChoicesSeen(st, chs[..|chs| - 1]);
      if id != "" && id in st.seenToolIDs {
        SeenCallsKeepName(o.st, last.message.toolCalls, id);
      } else {
        CallsKeepName(o.st, last.message.toolCalls, id);
      }
    }
  }

  /** The frame may give another name to an id that was announced. */
  predicate Renames(ev: Response, id: string) {
    ev.error.None? && (ev.kind.Chunk? || (ev.kind.Completion? && id == ""))
    && exists ch :: ch in ev.choices && UsedIn(CallsOf(ev.kind, ch), id)
  }

  lemma HandleKeepsName(st: State, ev: Response, id: string)
    requires !Renames(ev, id) && (id == "" || id in st.seenToolIDs)
    ensures NameOf(Handle(st, ev).st, id) == NameOf(st, id)
  {
    if ev.error.None? {
      var begun := StartModel(st, ev.model).st;
      if ev.kind.Chunk? {
        DeltaChoicesKeepName(begun, ev.choices, id);
      } else if ev.kind.Completion? {
        FinalChoicesKeepName(begun.(content := begun.content + if st.inModel then "" else MessageText(ev.choices)), ev.choices, id);
      }
    }
  }

  lemma {:induction false} RunKeepsName(st: State, evs: seq<Response>, id: string)
    requires id == "" || id in st.seenToolIDs
    requires forall ev :: ev in evs ==> !Renames(ev, id)
    ensures NameOf(HandleAll(st, evs).st, id) == NameOf(st, id)
    ensures id == "" || id in HandleAll(st, evs).st.seenToolIDs
  {
    if evs != [] {
      RunKeepsName(st, evs[..|evs| - 1], id);
      HandleKeepsName(HandleAll(st, evs[..|evs| - 1]).st, evs[|evs| - 1], id);
      HandleSeen(HandleAll(st, evs[..|evs| - 1]).st, evs[|evs| - 1]);
    }
  }

  // ---- The frame that starts a call ----

  predicate NoneAfter(tcs: seq<ToolCall>, j: nat, id: string) {
    forall k :: j < k < |tcs| ==> !Uses(tcs[k], id)
  }

  predicate NoneBefore(tcs: seq<ToolCall>, j: nat, id: string)
    requires j <= |tcs|
  {
    forall k :: 0 <= k < j ==> !Uses(tcs[k], id)
  }

  lemma {:induction false} DeltaCallNamed(st: State, tcs: seq<ToolCall>, j: nat)
    requires j < |tcs| && tcs[j].name != "" && NoneAfter(tcs, j, tcs[j].id)
    ensures NameOf(DeltaCalls(st, tcs).st, tcs[j].id) == tcs[j].name
  {
    if j < |tcs| - 1 {
      DeltaCallNamed(st, tcs[..|tcs| - 1], j);
      assert !Uses(tcs[|tcs| - 1], tcs[j].id);
    }
  }

  lemma {:induction false} DeltaChoiceNamed(st: State, chs: seq<Choice>, i: nat, j: nat)
    requires i < |chs| && j < |chs[i].delta.toolCalls| && chs[i].delta.toolCalls[j].name != ""
    requires NoneAfter(chs[i].delta.toolCalls, j, chs[i].delta.toolCalls[j].id)
    requires forall k :: i < k < |chs| ==> !UsedIn(chs[k].delta.toolCalls, chs[i].delta.toolCalls[j].id)
    ensures NameOf(DeltaChoices(st, chs).st, chs[i].delta.toolCalls[j].id) == chs[i].delta.toolCalls[j].name
  {
    var o, last := DeltaChoices(st, chs[..|chs| - 1]), chs[|chs| - 1];
    var mid := o.st.(content := o.st.content + last.delta.content);
    if i == |chs| - 1 {
      DeltaCallNamed(mid, last.delta.toolCalls, j);
    } else {
      DeltaChoiceNamed(st, chs[..|chs| - 1], i, j);
      CallsKeepName(mid, last.delta.toolCalls, chs[i].delta.toolCalls[j].id);
    }
  }

  /** A final call gives its name when it is started: first under its id, or last when it has none. */
  predicate GivesName(seen: set<string>, tcs: seq<ToolCall>, j: nat)
    requires j < |tcs|
  {
    && tcs[j].name != ""
    && (if tcs[j].id == "" then NoneAfter(tcs, j, "")
        else tcs[j].id !in seen && NoneBefore(tcs, j, tcs[j].id))
  }

  lemma {:induction false} FinalCallNamed(st: State, tcs: seq<ToolCall>, j: nat)
    requires j < |tcs| && GivesName(st.seenToolIDs, tcs, j)
    ensures NameOf(FinalCalls(st, tcs).st, tcs[j].id) == tcs[j].name
  {
    var n := |tcs| - 1;
    FinalCallsSeen(st, tcs[..n]);
    if j < n {
      FinalCallNamed(st, tcs[..n], j);
      assert tcs[..n][j] == tcs[j];
      assert tcs[j].id == "" ==> !Uses(tcs[n], "");
      assert tcs[j].id != "" ==> tcs[j].id in FinalIds(tcs[..n]);
    } else {
      NotAmongBefore(tcs, j);
    }
  }

  lemma NotAmongBefore(tcs: seq<ToolCall>, j: nat)
    requires j < |tcs| && (tcs[j].id == "" || NoneBefore(tcs, j, tcs[j].id))
    ensures tcs[j].id !in FinalIds(tcs[..j])
  {
    forall tc | tc in tcs[..j] && tc.id != "" && tc.name != "" ensures tc.id != tcs[j].id {
      var k :| 0 <= k < j && tcs[k] == tc;
      assert tcs[j].id != "" ==> !Uses(tcs[k], tcs[j].id);
    }
  }

  lemma {:induction false} FinalChoiceNamed(st: State, chs: seq<Choice>, i: nat, j: nat)
    requires i < |chs| && j < |chs[i].message.toolCalls| && GivesName(st.seenToolIDs, chs[i].message.toolCalls, j)
    requires var id := chs[i].message.toolCalls[j].id;
             if id == "" then forall k :: i < k < |chs| ==> !UsedIn(chs[k].message.toolCalls, id)
             else forall k :: 0 <= k < i ==> !UsedIn(chs[k].message.toolCalls, id)
    ensures NameOf(FinalChoices(st, chs).st, chs[i].message.toolCalls[j].id) == chs[i].message.toolCalls[j].name
  {
    var n, tc := |chs| - 1, chs[i].message.toolCalls[j];
    var o := FinalChoices(st, chs[..n]);
    FinalChoicesSeen(st, chs[..n]);
    if i == n {
      assert tc.id !in o.st.seenToolIDs || tc.id == "";
      FinalCallNamed(o.st, chs[n].message.toolCalls, j);
    } else {
      FinalChoiceNamed(st, chs[..n], i, j);
      assert chs[..n][i] == chs[i] && chs[i] in chs[..n] && tc in chs[i].message.toolCalls;
      if tc.id == "" {
        CallsKeepName(o.st, chs[n].message.toolCalls, "");
      } else {
        assert tc.id in FinalIds(chs[i].message.toolCalls);
        SeenCallsKeepName(o.st, chs[n].message.toolCalls, tc.id);
      }
    }
  }

  /**
   * Call j of choice i of the frame is started, and the name it gives its id is
   * the one that stands when the frame is done. seen are the ids announced before.
   */
  predicate Starts(seen: set<string>, ev: Response, i: nat, j: nat) {
    && ev.error.None? && (ev.kind.Chunk? || ev.kind.Completion?)
    && i < |ev.choices| && j < |CallsOf(ev.kind, ev.choices[i])|
    && var tcs := CallsOf(ev.kind, ev.choices[i]);
       var id := tcs[j].id;
       if ev.kind.Chunk? then
         && tcs[j].name != "" && NoneAfter(tcs, j, id)
         && forall k :: i < k < |ev.choices| ==> !UsedIn(CallsOf(ev.kind, ev.choices[k]), id)
       else
         && GivesName(seen, tcs, j)
         && if id == "" then forall k :: i < k < |ev.choices| ==> !UsedIn(CallsOf(ev.kind, ev.choices[k]), id)
            else forall k :: 0 <= k < i ==> !UsedIn(CallsOf(ev.kind, ev.choices[k]), id)
  }

  lemma StartIsNamed(st: State, ev: Response, i: nat, j: nat)
    requires Starts(st.seenToolIDs, ev, i, j)
    ensures var tc := CallsOf(ev.kind, ev.choices[i])[j];
            && NameOf(Handle(st, ev).st, tc.id) == tc.name
            && (tc.id == "" || tc.id in Handle(st, ev).st.seenToolIDs)
  {
    var tc := CallsOf(ev.kind, ev.choices[i])[j];
    var begun := StartModel(st, ev.model).st;
    HandleSeen(st, ev);
    assert ev.choices[i] in ev.choices && tc in CallsOf(ev.kind, ev.choices[i]);
    if ev.kind.Chunk? {
      DeltaChoiceNamed(begun, ev.choices, i, j);
      assert tc.id == "" || tc.id in DeltaIds(ev.choices[i].delta.toolCalls);
    } else {
      FinalChoiceNamed(begun.(content := begun.content + if st.inModel then "" else MessageText(ev.choices)), ev.choices, i, j);
      assert tc.id == "" || tc.id in FinalIds(ev.choices[i].message.toolCalls);
    }
  }

  /** Which call a tool response answers. */
  function AnsweredID(r: Response): string {
    if |r.choices| == 0 then ""
    else if r.choices[0].message.toolID != "" then r.choices[0].message.toolID
    else r.choices[0].delta.toolID
  }

  lemma {:induction false} RunConcat(st: State, a: seq<Response>, b: seq<Response>)
    ensures HandleAll(st, a + b).st == HandleAll(HandleAll(st, a).st, b).st
  {
    if b == [] {
      assert a + b == a;
    } else {
      assert (a + b)[..|a + b| - 1] == a + b[..|b| - 1];
      RunConcat(st, a, b[..|b| - 1]);
    }
  }

  /**
   * In any run, a frame starts a call and later a tool response answers its id:
   * the tool end carries the name of that start, whatever frames came before and
   * between, other calls' starts and responses included, as long as no delta
   * between names another call under the same id, and the response's own text.
   */
  lemma ToolEndNamesItsStart(before: seq<Response>, ev: Response, i: nat, j: nat, between: seq<Response>, r: Response)
    requires Starts(Announced(before), ev, i, j)
    requires r.kind.ToolResponse? && r.error.None? && AnsweredID(r) == CallsOf(ev.kind, ev.choices[i])[j].id
    requires forall x :: x in between ==> !Renames(x, AnsweredID(r))
    ensures var events := Handle(HandleAll(INITIAL, before + [ev] + between).st, r).events;
            && |events| == 1 && events[0].body.ToolEnd? && events[0].body.name == CallsOf(ev.kind, ev.choices[i])[j].name
            && IsClipOf(events[0].body.result, if r.choices == [] then "" else r.choices[0].message.content)
  {
    SeenIsAnnounced(before);
    RunConcat(INITIAL, before + [ev], between);
    assert (before + [ev])[..|before|] == before;
    EndAfterStart(HandleAll(INITIAL, before).st, ev, i, j, between, r);
  }

  lemma EndAfterStart(st: State, ev: Response, i: nat, j: nat, between: seq<Response>, r: Response)
    requires Starts(st.seenToolIDs, ev, i, j)
    requires r.kind.ToolResponse? && r.error.None? && AnsweredID(r) == CallsOf(ev.kind, ev.choices[i])[j].id
    requires forall x :: x in between ==> !Renames(x, AnsweredID(r))
    ensures var events := Handle(HandleAll(Handle(st, ev).st, between).st, r).events;
            && |events| == 1 && events[0].body.ToolEnd? && events[0].body.name == CallsOf(ev.kind, ev.choices[i])[j].name
            && IsClipOf(events[0].body.result, if r.choices == [] then "" else r.choices[0].message.content)
  {
    StartIsNamed(st, ev, i, j);
    RunKeepsName(Handle(st, ev).st, between, AnsweredID(r));
    StartedCallIsNamed(st.seenToolIDs, ev, i, j);
    EndTakesName(HandleAll(Handle(st, ev).st, between).st, r);
  }

  lemma StartedCallIsNamed(seen: set<string>, ev: Response, i: nat, j: nat)
    requires Starts(seen, ev, i, j)
    ensures CallsOf(ev.kind, ev.choices[i])[j].name != ""
  {
  }

  lemma EndTakesName(st: State, r: Response)
    requires r.kind.ToolResponse? && r.error.None? && NameOf(st, AnsweredID(r)) != ""
    ensures var events := Handle(st, r).events;
            && |events| == 1 && events[0].body.ToolEnd? && events[0].body.name == NameOf(st, AnsweredID(r))
            && IsClipOf(events[0].body.result, if r.choices == [] then "" else r.choices[0].message.content)
  {
  }
}
