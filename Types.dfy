/** The stored records: chat sessions and messages, artifacts, workflows and their runs.
    Dates are kept as the ISO strings they become in the JSON files. */
module Types {
  import opened Wrappers
  import opened Json

  type Timestamp = string

  datatype MessageRole = User | Assistant | System

  /** A tool call saved with an assistant message: its name, arguments and, when the
      call succeeded, `{toolCallId, result}` (JUndefined when there is no result). */
  datatype StoredToolCall = StoredToolCall(name: string, args: Json, result: Json)

  /** A chat message. `toolCalls` is the message's `metadata.toolCalls`, present only
      on the assistant messages that record tool calls. */
  datatype Message = Message(
    id: string,
    role: MessageRole,
    content: string,
    timestamp: Timestamp,
    toolCalls: Option<seq<StoredToolCall>>)

  datatype ChatSession = ChatSession(
    id: string,
    title: string,
    createdAt: Timestamp,
    updatedAt: Timestamp,
    messages: seq<Message>)

  datatype Artifact = Artifact(
    id: string,
    title: string,
    content: string,
    tags: seq<string>,
    createdAt: Timestamp,
    updatedAt: Timestamp)

  datatype WorkflowStatus = Pending | Running | Completed | Failed

  datatype Workflow = Workflow(id: string, name: string, description: string)

  /** A run of a workflow; `result` is JUndefined until the run records one. */
  datatype WorkflowRun = WorkflowRun(
    id: string,
    workflowId: string,
    status: WorkflowStatus,
    startedAt: Timestamp,
    completedAt: Option<Timestamp>,
    parameters: Json,
    result: Json,
    error: Option<string>)
}
