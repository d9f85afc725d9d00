// internal/runtime/trpc/replay.go: folding a streamed model call into the one
// response that is stored for replay.
module Aggregator {
  import opened Wrappers
  import opened Frames

  datatype Aggregate = Aggregate(content: string, sawDelta: bool, usage: Option<Usage>,
                                 toolCalls: seq<ToolCall>, modelName: string)

  const EMPTY := Aggregate("", false, None, [], "")

  function AddHeader(a: Aggregate, rsp: Response): Aggregate {
    a.(modelName := if a.modelName == "" then rsp.model else a.modelName,
       usage := if rsp.usage.Some? then rsp.usage else a.usage)
  }

  function AddChoice(a: Aggregate, ch: Choice): Aggregate {
    var a1 := if ch.delta.content != "" then a.(content := a.content + ch.delta.content, sawDelta := true) else a;
    var a2 := if !a1.sawDelta && ch.message.content != "" then a1.(content := a1.content + ch.message.content) else a1;
    if |ch.message.toolCalls| > 0 then a2.(toolCalls := ch.message.toolCalls) else a2
  }

  function AddChoices(a: Aggregate, chs: seq<Choice>): Aggregate {
    if chs == [] then a else AddChoice(AddChoices(a, chs[..|chs| - 1]), chs[|chs| - 1])
  }

  function AddFrame(a: Aggregate, rsp: Response): Aggregate {
    AddChoices(AddHeader(a, rsp), rsp.choices)
  }

  function AddFrames(a: Aggregate, frames: seq<Response>): Aggregate {
    if frames == [] then a else AddFrame(AddFrames(a, frames[..|frames| - 1]), frames[|frames| - 1])
  }

  /** The stored completion, or nothing when the stream carried nothing. */
  function FinalOf(a: Aggregate): Option<Response> {
    if a.modelName == "" && a.content == "" && |a.toolCalls| == 0 then None
    else Some(Response(Completion, a.modelName,
                       [Choice(NO_MESSAGE, Message(a.content, a.toolCalls, ""))],
                       a.usage, true, None))
  }

  class ResponseAggregator {
    var content: string
    var sawDelta: bool
    var usage: Option<Usage>
    var toolCalls: seq<ToolCall>
    var modelName: string

    ghost function State(): Aggregate
      reads this
    {
      Aggregate(content, sawDelta, usage, toolCalls, modelName)
    }

    constructor ()
      ensures State() == EMPTY
    {
      content, sawDelta, usage, toolCalls, modelName := "", false, None, [], "";
    }

    method Add(rsp: Response)
      modifies this
      ensures State() == AddFrame(old(State()), rsp)
    {
      if modelName == "" {
        modelName := rsp.model;
      }
      if rsp.usage.Some? {
        usage := rsp.usage;
      }
      ghost var start := State();
      for i := 0 to |rsp.choices|
        invariant State() == AddChoices(start, rsp.choices[..i])
      {
        var ch := rsp.choices[i];
        assert rsp.choices[..i + 1][..i] == rsp.choices[..i];
        if ch.delta.content != "" {
          content := content + ch.delta.content;
          sawDelta := true;
        }
        if !sawDelta && ch.message.content != "" {
          content := content + ch.message.content;
        }
        if |ch.message.toolCalls| > 0 {
          toolCalls := ch.message.toolCalls;
        }
      }
      assert rsp.choices[..|rsp.choices|] == rsp.choices;
    }

    method Final() returns (r: Option<Response>)
      ensures r == FinalOf(State())
    {
      if modelName == "" && content == "" && |toolCalls| == 0 {
        return None;
      }
      r := Some(Response(Completion, modelName, [Choice(NO_MESSAGE, Message(content, toolCalls, ""))],
                         usage, true, None));
    }
  }
}
