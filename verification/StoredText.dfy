// What the response stored for a model call holds, for any frames with any number
// of choices: its model name, its usage, its tool calls, and its text, streamed or
// not.
module StoredText {
  import opened Wrappers
  import opened Frames
  import opened Aggregator

  /** The choices of all frames, in order. */
  function Flat(frames: seq<Response>): seq<Choice> {
    if frames == [] then [] else Flat(frames[..|frames| - 1]) + frames[|frames| - 1].choices
  }

  /** The first model name that is not empty. */
  function NameIn(frames: seq<Response>): string {
    if frames == [] then "" else if frames[0].model != "" then frames[0].model else NameIn(frames[1..])
  }

  /** The last usage, if any. */
  function UsageIn(frames: seq<Response>): Option<Usage> {
    if frames == [] then None
    else if frames[|frames| - 1].usage.Some? then frames[|frames| - 1].usage
    else UsageIn(frames[..|frames| - 1])
  }

  /** The last tool calls of a message that has any. */
  function CallsIn(chs: seq<Choice>): seq<ToolCall> {
    if chs == [] then []
    else if chs[|chs| - 1].message.toolCalls != [] then chs[|chs| - 1].message.toolCalls
    else CallsIn(chs[..|chs| - 1])
  }

  /** Streaming begins at choice d, or nothing is streamed and d is the end. */
  predicate StreamsFrom(chs: seq<Choice>, d: nat) {
    && d <= |chs|
    && (forall i :: 0 <= i < d ==> chs[i].delta.content == "")
    && (d < |chs| ==> chs[d].delta.content != "")
  }

  /** Message text counts until streaming begins, and streamed text from then on. */
  predicate TextFrom(chs: seq<Choice>, d: nat, content: string)
    requires d <= |chs|
  {
    content == MessagesOf(chs[..d]) + DeltasOf(chs)
  }

  /** What a has taken from the choices, streaming from d. */
  predicate HasTaken(a: Aggregate, chs: seq<Choice>, d: nat) {
    && StreamsFrom(chs, d) && TextFrom(chs, d, a.content)
    && (a.sawDelta <==> d < |chs|)
    && a.toolCalls == CallsIn(chs)
  }

  lemma {:induction false} NoDeltas(chs: seq<Choice>)
    requires forall i :: 0 <= i < |chs| ==> chs[i].delta.content == ""
    ensures DeltasOf(chs) == ""
  {
    if chs != [] {
      NoDeltas(chs[..|chs| - 1]);
    }
  }

  /** One more choice; streaming begins with it at the earliest. */
  lemma TakesChoice(a: Aggregate, chs: seq<Choice>, d: nat, ch: Choice) returns (e: nat)
    requires HasTaken(a, chs, d)
    ensures HasTaken(AddChoice(a, ch), chs + [ch], e)
  {
    var more := chs + [ch];
    assert more[..|chs|] == chs && more[..d] == chs[..d];
    assert DeltasOf(more) == DeltasOf(chs) + ch.delta.content;
    if d < |chs| || ch.delta.content != "" {
      e := d;
      assert a.content + ch.delta.content == MessagesOf(chs[..d]) + DeltasOf(more);
    } else {
      e := d + 1;
      NoDeltas(chs);
      NoDeltas(more);
      assert chs[..d] == chs && more[..e] == more;
      assert MessagesOf(more) == MessagesOf(chs) + ch.message.content;
      assert a.content + ch.message.content == MessagesOf(more) + "";
    }
  }

  lemma {:induction false} TakesChoices(a: Aggregate, before: seq<Choice>, d: nat, chs: seq<Choice>) returns (e: nat)
    requires HasTaken(a, before, d)
    ensures HasTaken(AddChoices(a, chs), before + chs, e)
  {
    if chs == [] {
      assert before + chs == before;
      e := d;
    } else {
      var n := |chs| - 1;
      e := TakesChoices(a, before, d, chs[..n]);
      e := TakesChoice(AddChoices(a, chs[..n]), before + chs[..n], e, chs[n]);
      assert before + chs[..n] + [chs[n]] == before + chs;
    }
  }

  lemma {:induction false} ChoicesKeepHeader(a: Aggregate, chs: seq<Choice>)
    ensures AddChoices(a, chs).modelName == a.modelName && AddChoices(a, chs).usage == a.usage
  {
    if chs != [] {
      ChoicesKeepHeader(a, chs[..|chs| - 1]);
    }
  }

  lemma {:induction false} NameGrows(frames: seq<Response>, r: Response)
    ensures NameIn(frames + [r]) == if NameIn(frames) != "" then NameIn(frames) else r.model
  {
    if frames == [] {
      assert frames + [r] == [r];
    } else {
      assert (frames + [r])[1..] == frames[1..] + [r];
      NameGrows(frames[1..], r);
    }
  }

  lemma {:induction false} HeaderSays(frames: seq<Response>)
    ensures AddFrames(EMPTY, frames).modelName == NameIn(frames)
    ensures AddFrames(EMPTY, frames).usage == UsageIn(frames)
  {
    if frames != [] {
      var n := |frames| - 1;
      HeaderSays(frames[..n]);
      NameGrows(frames[..n], frames[n]);
      assert frames == frames[..n] + [frames[n]];
      ChoicesKeepHeader(AddHeader(AddFrames(EMPTY, frames[..n]), frames[n]), frames[n].choices);
    }
  }

  lemma {:induction false} ChoicesTaken(frames: seq<Response>) returns (d: nat)
    ensures HasTaken(AddFrames(EMPTY, frames), Flat(frames), d)
  {
    if frames == [] {
      d := 0;
    } else {
      var n := |frames| - 1;
      d := ChoicesTaken(frames[..n]);
      d := TakesChoices(AddHeader(AddFrames(EMPTY, frames[..n]), frames[n]), Flat(frames[..n]), d, frames[n].choices);
    }
  }

  /** The stored response holds this model name, text, calls and usage. */
  predicate Holds(r: Response, name: string, chs: seq<Choice>, d: nat, usage: Option<Usage>) {
    && StreamsFrom(chs, d)
    && r.kind.Completion? && r.error.None? && r.done && r.model == name && r.usage == usage
    && |r.choices| == 1 && r.choices[0].delta == Message("", [], "")
    && TextFrom(chs, d, r.choices[0].message.content) && r.choices[0].message.toolCalls == CallsIn(chs)
  }

  /**
   * For any frames: nothing is stored exactly when there is no model name, no text
   * and no tool call in any message; and what is stored is a completion with the
   * first model name, the last usage, the last message's tool calls, and the text of
   * the messages until streaming began and of the deltas from then on.
   */
  lemma StoredSays(frames: seq<Response>) returns (d: nat)
    ensures StreamsFrom(Flat(frames), d)
    ensures var stored := FinalOf(AddFrames(EMPTY, frames));
            && (stored.None? <==> NameIn(frames) == "" && TextFrom(Flat(frames), d, "") && CallsIn(Flat(frames)) == [])
            && (stored.Some? ==> Holds(stored.value, NameIn(frames), Flat(frames), d, UsageIn(frames)))
  {
    d := ChoicesTaken(frames);
    HeaderSays(frames);
  }
}
