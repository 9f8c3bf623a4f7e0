/** The messages exchanged with a model, over any kind of text and arguments. */
module Llm {
  datatype ToolCall<+T, +A> = ToolCall(id: T, name: T, args: A)

  datatype ToolResultContent<+T> = ToolResultContent(toolUseID: T, output: T, isError: bool)

  datatype Message<+T, +A> =
    Message(role: T, content: T, toolCalls: seq<ToolCall<T, A>>, toolResults: seq<ToolResultContent<T>>)
}
