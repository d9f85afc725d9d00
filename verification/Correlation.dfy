// Which tool calls the event normalizer knows to be announced, and so starts
// only once.
module Correlation {
  import opened Wrappers
  import opened Frames
  import opened Normalizer
  import opened Metrics

  function DeltaIds(tcs: seq<ToolCall>): set<string> {
    set tc | tc in tcs && tc.id != "" :: tc.id
  }

  function FinalIds(tcs: seq<ToolCall>): set<string> {
    set tc | tc in tcs && tc.id != "" && tc.name != "" :: tc.id
  }

  /** The ids a frame announces: any in a delta, those of named calls in a final message. */
  function AnnouncedIn(ev: Response): set<string> {
    if ev.error.Some? then {}
    else if ev.kind.Chunk? then set ch, id | ch in ev.choices && id in DeltaIds(ch.delta.toolCalls) :: id
    else if ev.kind.Completion? then set ch, id | ch in ev.choices && id in FinalIds(ch.message.toolCalls) :: id
    else {}
  }

  function Announced(evs: seq<Response>): set<string> {
    if evs == [] then {} else Announced(evs[..|evs| - 1]) + AnnouncedIn(evs[|evs| - 1])
  }

  lemma {:induction false} DeltaCallsSeen(st: State, tcs: seq<ToolCall>)
    ensures DeltaCalls(st, tcs).st.seenToolIDs == st.seenToolIDs + DeltaIds(tcs)
  {
    if tcs != [] {
      DeltaCallsSeen(st, tcs[..|tcs| - 1]);
      assert tcs == tcs[..|tcs| - 1] + [tcs[|tcs| - 1]];
    }
  }

  lemma {:induction false} FinalCallsSeen(st: State, tcs: seq<ToolCall>)
    ensures FinalCalls(st, tcs).st.seenToolIDs == st.seenToolIDs + FinalIds(tcs)
  {
    if tcs != [] {
      FinalCallsSeen(st, tcs[..|tcs| - 1]);
      assert tcs == tcs[..|tcs| - 1] + [tcs[|tcs| - 1]];
    }
  }

  lemma {:induction false} DeltaChoicesSeen(st: State, chs: seq<Choice>)
    ensures DeltaChoices(st, chs).st.seenToolIDs
         == st.seenToolIDs + set ch, id | ch in chs && id in DeltaIds(ch.delta.toolCalls) :: id
  {
    if chs != [] {
      var o, last := DeltaChoices(st, chs[..|chs| - 1]), chs[|chs| - 1];
      DeltaChoicesSeen(st, chs[..|chs| - 1]);
      DeltaCallsSeen(o.st.(content := o.st.content + last.delta.content), last.delta.toolCalls);
      assert chs == chs[..|chs| - 1] + [last];
    }
  }

  lemma {:induction false} FinalChoicesSeen(st: State, chs: seq<Choice>)
    ensures FinalChoices(st, chs).st.seenToolIDs
         == st.seenToolIDs + set ch, id | ch in chs && id in FinalIds(ch.message.toolCalls) :: id
  {
    if chs != [] {
      var o, last := FinalChoices(st, chs[..|chs| - 1]), chs[|chs| - 1];
      FinalChoicesSeen(st, chs[..|chs| - 1]);
      FinalCallsSeen(o.st, last.message.toolCalls);
      assert chs == chs[..|chs| - 1] + [last];
    }
  }

  lemma HandleSeen(st: State, ev: Response)
    ensures Handle(st, ev).st.seenToolIDs == st.seenToolIDs + AnnouncedIn(ev)
  {
    if ev.error.None? {
      var begun := StartModel(st, ev.model).st;
      if ev.kind.Chunk? {
        DeltaChoicesSeen(begun, ev.choices);
      } else if ev.kind.Completion? {
        FinalChoicesSeen(begun.(content := begun.content + if st.inModel then "" else MessageText(ev.choices)), ev.choices);
      }
    }
  }

  lemma {:induction false} SeenIsAnnounced(evs: seq<Response>)
    ensures HandleAll(INITIAL, evs).st.seenToolIDs == Announced(evs)
  {
    if evs != [] {
      SeenIsAnnounced(evs[..|evs| - 1]);
      HandleSeen(HandleAll(INITIAL, evs[..|evs| - 1]).st, evs[|evs| - 1]);
    }
  }

  /** Every call the program would start was announced before under its own id. */
  predicate AllKnown(seen: set<string>, tcs: seq<ToolCall>) {
    forall tc :: tc in tcs ==> tc.name == "" || (tc.id != "" && tc.id in seen)
  }

  lemma {:induction false} SilentCallsIff(st: State, tcs: seq<ToolCall>)
    ensures Tools(FinalCalls(st, tcs).events) == 0 <==> AllKnown(st.seenToolIDs, tcs)
    ensures AllKnown(st.seenToolIDs, tcs) ==> FinalCalls(st, tcs) == Idle(st)
  {
    if tcs != [] {
      var front, last := tcs[..|tcs| - 1], tcs[|tcs| - 1];
      var o := FinalCalls(st, front);
      SilentCallsIff(st, front);
      FoldsConcat(o.events, FinalCall(o.st, last).events);
      assert tcs == front + [last];
    }
  }

  lemma {:induction false} SilentChoicesIff(st: State, chs: seq<Choice>)
    ensures Tools(FinalChoices(st, chs).events) == 0
            <==> forall ch :: ch in chs ==> AllKnown(st.seenToolIDs, ch.message.toolCalls)
    ensures (forall ch :: ch in chs ==> AllKnown(st.seenToolIDs, ch.message.toolCalls))
            ==> FinalChoices(st, chs) == Idle(st)
  {
    if chs != [] {
      var front, last := chs[..|chs| - 1], chs[|chs| - 1];
      var o := FinalChoices(st, front);
      SilentChoicesIff(st, front);
      SilentCallsIff(o.st, last.message.toolCalls);
      FoldsConcat(o.events, FinalCalls(o.st, last.message.toolCalls).events);
      assert chs == front + [last];
    }
  }

  /**
   * A completion frame starts no tool exactly when every named call in it carries
   * an id announced earlier in the run, by a delta or by another completion.
   */
  lemma CompletionIsSilentIff(evs: seq<Response>, ev: Response)
    requires ev.kind.Completion? && ev.error.None?
    ensures Tools(Handle(HandleAll(INITIAL, evs).st, ev).events) == 0
            <==> forall ch :: ch in ev.choices ==> AllKnown(Announced(evs), ch.message.toolCalls)
  {
    SeenIsAnnounced(evs);
    var st := HandleAll(INITIAL, evs).st;
    var o1 := StartModel(st, ev.model);
    var st2 := o1.st.(content := o1.st.content + if st.inModel then "" else MessageText(ev.choices));
    SilentChoicesIff(st2, ev.choices);
    var o2 := Then(o1, FinalChoices(st2, ev.choices));
    FoldsConcat(o1.events, FinalChoices(st2, ev.choices).events);
    FoldsConcat(o2.events, EndModel(SetUsage(o2.st, ev.usage)).events);
  }
}
