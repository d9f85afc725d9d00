// The parts of the agent framework's frames that the runtime adapter reads.
module Frames {
  import opened Wrappers

  datatype ToolCall = ToolCall(id: string, name: string, args: string)

  datatype Message = Message(content: string, toolCalls: seq<ToolCall>, toolID: string)

  datatype Choice = Choice(delta: Message, message: Message)

  /** Go's int on 64-bit machines: the counts a response can carry and be decoded with. */
  type GoInt = n: int | -0x8000000000000000 <= n < 0x8000000000000000

  datatype Usage = Usage(prompt: GoInt, completion: GoInt)

  datatype ErrorInfo = ErrorInfo(message: string, typ: string)

  datatype FrameKind = Chunk | Completion | ToolResponse | ErrorObject | Plumbing

  datatype Response = Response(kind: FrameKind, model: string, choices: seq<Choice>,
                               usage: Option<Usage>, done: bool, error: Option<ErrorInfo>)

  const NO_MESSAGE := Message("", [], "")

  /** The streamed text of some choices, and the text of their messages. */
  function DeltasOf(chs: seq<Choice>): string {
    if chs == [] then "" else DeltasOf(chs[..|chs| - 1]) + chs[|chs| - 1].delta.content
  }

  function MessagesOf(chs: seq<Choice>): string {
    if chs == [] then "" else MessagesOf(chs[..|chs| - 1]) + chs[|chs| - 1].message.content
  }
}
