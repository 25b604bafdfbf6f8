/** Messages, their tool calls, and what becomes of a call (packages/agent/src/types.ts, agent-loop.ts). */
module AgentMessages {
  datatype Stop = Normal | Error | Aborted

  datatype Role = User | Custom | Assistant | ToolResult

  datatype Call = Call(id: string, name: string)

  /** A message of any role; `calls` and `stop` belong to the assistant's, `callId` to a tool's result. */
  datatype Message = Message(role: Role, text: string, calls: seq<Call>, stop: Stop, callId: string, isError: bool)

  datatype ToolOutcome = ToolOutcome(text: string, isError: bool, terminate: bool)

  /** `createToolResultMessage`. */
  function ToolResultMessage(call: Call, finalized: ToolOutcome): Message {
    Message(ToolResult, finalized.text, [], Normal, call.id, finalized.isError)
  }

  /** A result message for each of the first calls, in their order, with what became of the call. */
  predicate ResultsOf(results: seq<Message>, calls: seq<Call>, finished: map<nat, ToolOutcome>) {
    && |results| <= |calls|
    && forall k :: 0 <= k < |results| ==> k in finished && results[k] == ToolResultMessage(calls[k], finished[k])
  }

  /** The calls that have ended are the first `count`. */
  ghost predicate AllFinished(finished: map<nat, ToolOutcome>, count: nat) {
    forall k: nat :: k in finished <==> k < count
  }
}
