/**
  The message parameters the daemon hands to the model provider: a
  conversation is a sequence of messages, each a role and content blocks.
*/
module Conversation {
  import opened Json

  datatype Role = User | Assistant

  datatype Block =
    | Text(text: string)
    | Image(mediaType: string, data: string)
    /** A tool call the model made, with its input exactly as the model sent it. */
    | ToolUse(id: string, name: string, input: RawJson)
    /** The answer to the tool call `toolUseId`: the JSON of the tool's response. */
    | ToolResult(toolUseId: string, content: Json, isError: bool)

  datatype Message = Message(role: Role, content: seq<Block>)

  function UserText(text: string): Message {
    Message(User, [Text(text)])
  }

  function AssistantText(text: string): Message {
    Message(Assistant, [Text(text)])
  }
}
