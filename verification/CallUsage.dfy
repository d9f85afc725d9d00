// The usage the event normalizer counts for a model call, and when that is the
// usage of the call.
module CallUsage {
  import opened Wrappers
  import opened Frames
  import opened Normalizer
  import opened Metrics

  /** The frame ends a model call: a completion, or the last chunk of a stream. */
  predicate CallEnds(ev: Response) {
    ev.error.None? && (ev.kind.Completion? || (ev.kind.Chunk? && ev.done))
  }

  predicate CarriesUsage(ev: Response) {
    ev.error.None? && (ev.kind.Chunk? || ev.kind.Completion?) && ev.usage.Some?
  }

  /** The last usage that frames of model calls carried, if any did. */
  function OwnUsage(evs: seq<Response>): Option<Usage> {
    if evs == [] then None
    else if CarriesUsage(evs[|evs| - 1]) then evs[|evs| - 1].usage
    else OwnUsage(evs[..|evs| - 1])
  }

  lemma {:induction false} OwnUsageIff(evs: seq<Response>)
    ensures OwnUsage(evs).Some? <==> exists ev :: ev in evs && CarriesUsage(ev)
  {
    if evs != [] {
      OwnUsageIff(evs[..|evs| - 1]);
      assert evs == evs[..|evs| - 1] + [evs[|evs| - 1]];
    }
  }

  function UsageOr(u: Option<Usage>, otherwise: (int, int)): (int, int) {
    if u.Some? then (u.value.prompt, u.value.completion) else otherwise
  }

  /** The parts of the state that say what model calls have cost. */
  function Costs(st: State): (int, int, int, int) {
    (st.tokensIn, st.tokensOut, st.inputTokens, st.outputTokens)
  }

  lemma {:induction false} CallsKeepCosts(st: State, tcs: seq<ToolCall>)
    ensures Costs(DeltaCalls(st, tcs).st) == Costs(FinalCalls(st, tcs).st) == Costs(st)
  {
    if tcs != [] {
      CallsKeepCosts(st, tcs[..|tcs| - 1]);
    }
  }

  lemma {:induction false} CallsEndNothing(st: State, tcs: seq<ToolCall>)
    ensures Ends(DeltaCalls(st, tcs).events) == Ends(FinalCalls(st, tcs).events) == 0
  {
    if tcs != [] {
      var d, f, last := DeltaCalls(st, tcs[..|tcs| - 1]), FinalCalls(st, tcs[..|tcs| - 1]), tcs[|tcs| - 1];
      CallsEndNothing(st, tcs[..|tcs| - 1]);
      FoldsConcat(d.events, DeltaCall(d.st, last).events);
      FoldsConcat(f.events, FinalCall(f.st, last).events);
    }
  }

  lemma {:induction false} ChoicesKeepCosts(st: State, chs: seq<Choice>)
    ensures Costs(DeltaChoices(st, chs).st) == Costs(FinalChoices(st, chs).st) == Costs(st)
  {
    if chs != [] {
      var d, f, last := DeltaChoices(st, chs[..|chs| - 1]), FinalChoices(st, chs[..|chs| - 1]), chs[|chs| - 1];
      ChoicesKeepCosts(st, chs[..|chs| - 1]);
      CallsKeepCosts(d.st.(content := d.st.content + last.delta.content), last.delta.toolCalls);
      CallsKeepCosts(f.st, last.message.toolCalls);
    }
  }

  lemma {:induction false} ChoicesEndNothing(st: State, chs: seq<Choice>)
    ensures Ends(DeltaChoices(st, chs).events) == Ends(FinalChoices(st, chs).events) == 0
  {
    if chs != [] {
      var d, f, last := DeltaChoices(st, chs[..|chs| - 1]), FinalChoices(st, chs[..|chs| - 1]), chs[|chs| - 1];
      ChoicesEndNothing(st, chs[..|chs| - 1]);
      CallsEndNothing(d.st.(content := d.st.content + last.delta.content), last.delta.toolCalls);
      CallsEndNothing(f.st, last.message.toolCalls);
      FoldsConcat(d.events, DeltaChoice(d.st, last).events);
      FoldsConcat(f.events, FinalCalls(f.st, last.message.toolCalls).events);
    }
  }

  /** A frame ends a call in the trace exactly when CallEnds says so. */
  lemma EndsWhenCallEnds(st: State, ev: Response)
    ensures Ends(Handle(st, ev).events) == if CallEnds(ev) then 1 else 0
  {
    if ev.error.None? && ev.kind.Chunk? {
      var o1 := StartModel(st, ev.model);
      var more := DeltaChoices(o1.st, ev.choices);
      ChoicesEndNothing(o1.st, ev.choices);
      FoldsConcat(o1.events, more.events);
      FoldsConcat(o1.events + more.events, EndModel(SetUsage(more.st, ev.usage)).events);
    } else if ev.error.None? && ev.kind.Completion? {
      var o1 := StartModel(st, ev.model);
      var mid := o1.st.(content := o1.st.content + if st.inModel then "" else MessageText(ev.choices));
      var more := FinalChoices(mid, ev.choices);
      ChoicesEndNothing(mid, ev.choices);
      FoldsConcat(o1.events, more.events);
      FoldsConcat(o1.events + more.events, EndModel(SetUsage(more.st, ev.usage)).events);
    }
  }

  /** A frame sets the usage it carries, and a call that ends adds the usage then set. */
  lemma HandleCosts(st: State, ev: Response)
    ensures var st' := Handle(st, ev).st;
            && (st'.tokensIn, st'.tokensOut)
               == UsageOr(if CarriesUsage(ev) then ev.usage else None, (st.tokensIn, st.tokensOut))
            && st'.inputTokens == st.inputTokens + (if CallEnds(ev) then st'.tokensIn else 0)
            && st'.outputTokens == st.outputTokens + (if CallEnds(ev) then st'.tokensOut else 0)
  {
    if ev.error.None? {
      var begun := StartModel(st, ev.model).st;
      if ev.kind.Chunk? {
        ChoicesKeepCosts(begun, ev.choices);
      } else if ev.kind.Completion? {
        ChoicesKeepCosts(begun.(content := begun.content + if st.inModel then "" else MessageText(ev.choices)), ev.choices);
      }
    }
  }

  /** The token fields hold the last usage seen, from whichever call. */
  lemma {:induction false} UsageIsLastSeen(st: State, evs: seq<Response>)
    ensures var st' := HandleAll(st, evs).st;
            (st'.tokensIn, st'.tokensOut) == UsageOr(OwnUsage(evs), (st.tokensIn, st.tokensOut))
  {
    if evs != [] {
      UsageIsLastSeen(st, evs[..|evs| - 1]);
      HandleCosts(HandleAll(st, evs[..|evs| - 1]).st, evs[|evs| - 1]);
    }
  }

  lemma {:induction false} NothingCounted(st: State, evs: seq<Response>)
    requires forall i :: 0 <= i < |evs| ==> !CallEnds(evs[i])
    ensures HandleAll(st, evs).st.inputTokens == st.inputTokens
    ensures HandleAll(st, evs).st.outputTokens == st.outputTokens
  {
    if evs != [] {
      NothingCounted(st, evs[..|evs| - 1]);
      HandleCosts(HandleAll(st, evs[..|evs| - 1]).st, evs[|evs| - 1]);
    }
  }

  /** The frames of one call: the last of them, and only the last, ends it. */
  predicate OneCall(cs: seq<Response>) {
    cs != [] && CallEnds(cs[|cs| - 1]) && forall i :: 0 <= i < |cs| - 1 ==> !CallEnds(cs[i])
  }

  /** Handling a call adds the usage u to the counters. */
  predicate Counts(st: State, cs: seq<Response>, u: (int, int)) {
    var st' := HandleAll(st, cs).st;
    st'.inputTokens == st.inputTokens + u.0 && st'.outputTokens == st.outputTokens + u.1
  }

  /**
   * A call, streamed or not, adds its own usage to the run's counters, nothing
   * when it has none, exactly when one of its frames carries usage or the last
   * usage of the run before it was zero or absent: otherwise that is counted again.
   */
  lemma CallCountsOwnUsageIff(evs: seq<Response>, cs: seq<Response>)
    requires OneCall(cs)
    ensures Counts(HandleAll(INITIAL, evs).st, cs, UsageOr(OwnUsage(cs), (0, 0)))
            <==> (exists ev :: ev in cs && CarriesUsage(ev)) || UsageOr(OwnUsage(evs), (0, 0)) == (0, 0)
  {
    var st, front, last := HandleAll(INITIAL, evs).st, cs[..|cs| - 1], cs[|cs| - 1];
    OwnUsageIff(cs);
    UsageIsLastSeen(INITIAL, evs);
    UsageIsLastSeen(st, cs);
    NothingCounted(st, front);
    HandleCosts(HandleAll(st, front).st, last);
  }

  /** A call with usage, then a streamed one without: the run counts the first usage twice. */
  lemma UsageCountedTwice() returns (first: Response, second: Response)
    ensures (first.usage, second.usage) == (Some(Usage(100, 20)), None)
    ensures var st := HandleAll(HandleAll(INITIAL, [first]).st, [second]).st;
            (st.modelCalls, st.inputTokens, st.outputTokens) == (2, 200, 40)
  {
    first := Response(Completion, "m", [], Some(Usage(100, 20)), true, None);
    second := Response(Chunk, "m", [], None, true, None);
    var st1 := Handle(INITIAL, first).st;
    HandleCosts(INITIAL, first);
    HandleCosts(st1, second);
    assert [first][..0] == [] && [second][..0] == [];
    assert HandleAll(INITIAL, [first]).st == st1;
    assert HandleAll(st1, [second]).st == Handle(st1, second).st;
  }
}
