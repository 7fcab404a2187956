/**
 * The conversation the agent keeps with the model (the `messages` list of
 * agent.py): user and assistant turns whose content is text, the assistant's
 * content blocks, or the results of the tools it asked for.
 */
module Messages {
  import opened Json
  import Tools

  datatype Role = User | Assistant

  /** One content block of a model turn: text, or a request to run a tool. */
  datatype Block =
    | TextBlock(text: string)
    | ToolUse(id: string, name: string, input: map<string, Value>)

  /** `{"type": "tool_result", "tool_use_id": ..., "content": ...}`; the content is the tool's answer before rendering. */
  datatype ToolResult = ToolResult(toolUseId: string, content: Tools.ToolOutput)

  /**
   * What a message carries. The wording of the few-shot exemplars is not
   * modelled: `Exemplar(k)` stands for the text of the k-th exemplar.
   */
  datatype Content =
    | Text(text: string)
    | Exemplar(index: nat)
    | AssistantBlocks(blocks: seq<Block>)
    | ToolResults(results: seq<ToolResult>)

  datatype Message = Message(role: Role, content: Content)
}
