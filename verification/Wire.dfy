/** Vocabulary shared by the protocol adapters: stop-reason tables, usage
    blocks, the absent-arguments policy, and the Responses events with the
    kernel that renders them. */
module Wire {
  import opened Basics
  import opened ResponseTools

  // ---- stop reasons, finish reasons, statuses ----

  function ClaudeStopToFinish(stop: string): string {
    match stop
    case "tool_use" => "tool_calls"
    case "max_tokens" => "length"
    case "refusal" => "content_filter"
    case _ => "stop"
  }

  function FinishToClaudeStop(finish: string): string {
    match finish
    case "tool_calls" => "tool_use"
    case "length" => "max_tokens"
    case "content_filter" => "refusal"
    case _ => "end_turn"
  }

  function TerminalReason(toolsSeen: bool, toolReason: string, statusReason: string): string {
    if toolsSeen then toolReason else statusReason
  }

  function ResponseStatusFromFinish(finish: string): string {
    if finish == "length" then "incomplete" else "completed"
  }

  function ResponseStatusFromClaudeStop(stop: string): string {
    if stop == "max_tokens" then "incomplete" else "completed"
  }

  function FinishFromResponseStatus(status: string): string {
    if status == "incomplete" then "length" else "stop"
  }

  function ClaudeStopFromResponseStatus(status: string): string {
    if status == "incomplete" then "max_tokens" else "end_turn"
  }

  // ---- usage ----

  function ValueOrZero(v: Option<int>): int {
    match v
    case Some(n) => n
    case None => 0
  }

  /** Subtracts the present parts and never goes below zero. */
  function ClampSubtract(value: int, a: Option<int>, b: Option<int>): int {
    var rest := value - ValueOrZero(a) - ValueOrZero(b);
    if rest < 0 then 0 else rest
  }

  datatype UsageDetails = UsageDetails(cached: Option<int>, cacheWrite: Option<int>, reasoning: Option<int>)

  const NO_DETAILS := UsageDetails(None, None, None)

  datatype InputDetails = InputDetails(cached: Option<int>, cacheWrite: Option<int>)

  datatype ResponsesUsage = ResponsesUsage(input: int, output: int, total: int,
                                           inputDetails: Option<InputDetails>, reasoning: Option<int>)

  function ResponsesUsageFrom(input: int, output: int, d: UsageDetails): ResponsesUsage {
    ResponsesUsage(input, output, input + output,
                   if d.cached.Some? || d.cacheWrite.Some? then Some(InputDetails(d.cached, d.cacheWrite)) else None,
                   d.reasoning)
  }

  datatype ChatUsage = ChatUsage(prompt: int, completion: int, total: int, cached: Option<int>, reasoning: Option<int>)

  function ChatUsageFrom(prompt: int, completion: int, d: UsageDetails): ChatUsage {
    ChatUsage(prompt, completion, prompt + completion, d.cached, d.reasoning)
  }

  datatype ClaudeUsage = ClaudeUsage(input: int, output: int, cacheRead: Option<int>, cacheWrite: Option<int>)

  // ---- tool arguments ----

  /** Blank or null arguments become an empty JSON object. */
  function DefaultArgs(args: string): string {
    var s := TrimSpace(args);
    if s == "" || s == "null" then "{}" else args
  }

  // ---- Responses events ----

  datatype OutItem =
    | Message(id: string, content: seq<string>)  // the texts of its output_text parts
    | Call(call: RespItem)

  datatype Event =
    | Created(id: string)
    | ItemAdded(index: int, item: OutItem)
    | TextDelta(itemId: string, index: int, delta: string)
    | ArgsDelta(itemId: string, index: int, delta: string)
    | CustomInputDelta(itemId: string, index: int, delta: string)
    | TextDone(itemId: string, index: int, text: string)
    | ContentPartDone(itemId: string, index: int, text: string)
    | ArgsDone(itemId: string, index: int, name: string, arguments: string)
    | CustomInputDone(itemId: string, index: int, input: string)
    | ItemDone(index: int, item: OutItem)
    | Completed(id: string, model: string, status: string, usage: ResponsesUsage, output: seq<OutItem>)

  function FunctionCall(callId: string, name: string, arguments: string): RespItem {
    RespItem("function_call", callId, name, "", arguments, None, None, "")
  }

  /** The announcement of a call, with its identity restored. */
  function CallAdded(names: ToolNames, index: int, callId: string, name: string): Event {
    ItemAdded(index, Call(RestoreCall(names, FunctionCall(callId, name, ""))))
  }

  /** One fragment of a call's arguments: verbatim for functions; for custom
      tools only the unwrapped input past what was already sent, and nothing
      until the accumulated arguments decode.  Returns the new sent length. */
  function ToolDelta(names: ToolNames, itemId: string, index: int, name: string,
                     fragment: string, accumulated: string, emitted: nat): (seq<Event>, nat)
  {
    if !Identity(names, name).custom then ([ArgsDelta(itemId, index, fragment)], emitted)
    else
      var input := names.unwrap(accumulated);
      if input == accumulated || emitted >= |input| then ([], emitted)
      else ([CustomInputDelta(itemId, index, input[emitted..])], |input|)
  }

  /** The completion of one rendered item. */
  function ItemCompletion(index: int, item: OutItem): seq<Event> {
    match item
    case Message(id, content) =>
      var text := Concat(content);
      [TextDone(id, index, text), ContentPartDone(id, index, text), ItemDone(index, item)]
    case Call(call) =>
      if call.kind == "custom_tool_call" then
        [CustomInputDone(call.callId, index, match call.input case Some(s) => s case None => ""), ItemDone(index, item)]
      else
        [ArgsDone(call.callId, index, call.name, call.arguments), ItemDone(index, item)]
  }

  function Completions(items: seq<OutItem>): seq<Event> {
    if items == [] then []
    else Completions(items[..|items| - 1]) + ItemCompletion(|items| - 1, items[|items| - 1])
  }

  lemma StopReasonsRoundTrip(stop: string, finish: string)
    ensures FinishToClaudeStop(ClaudeStopToFinish(stop)) == stop <==>
            stop in {"tool_use", "max_tokens", "refusal", "end_turn"}
    ensures ClaudeStopToFinish(FinishToClaudeStop(finish)) == finish <==>
            finish in {"tool_calls", "length", "content_filter", "stop"}
    ensures ResponseStatusFromClaudeStop(FinishToClaudeStop(finish)) == ResponseStatusFromFinish(finish)
    ensures ResponseStatusFromFinish(ClaudeStopToFinish(stop)) == ResponseStatusFromClaudeStop(stop)
    ensures FinishToClaudeStop(finish) == "tool_use" <==> finish == "tool_calls"
    ensures ClaudeStopToFinish(stop) == "tool_calls" <==> stop == "tool_use"
  {
  }

  /** Truncation, and nothing else, is what a status says of a reason: the two tables
      that lead back from a status are inverse to those that lead to one, and agree. */
  lemma StatusesRoundTrip(status: string, finish: string, stop: string)
    ensures ResponseStatusFromFinish(finish) == (if finish == "length" then "incomplete" else "completed")
    ensures ResponseStatusFromClaudeStop(stop) == (if stop == "max_tokens" then "incomplete" else "completed")
    ensures ResponseStatusFromFinish(FinishFromResponseStatus(status)) == status <==>
            status in {"completed", "incomplete"}
    ensures ResponseStatusFromClaudeStop(ClaudeStopFromResponseStatus(status)) == status <==>
            status in {"completed", "incomplete"}
    ensures FinishFromResponseStatus(ResponseStatusFromFinish(finish)) == finish <==> finish in {"length", "stop"}
    ensures ClaudeStopFromResponseStatus(ResponseStatusFromClaudeStop(stop)) == stop <==>
            stop in {"max_tokens", "end_turn"}
    ensures ClaudeStopToFinish(ClaudeStopFromResponseStatus(status)) == FinishFromResponseStatus(status)
    ensures FinishToClaudeStop(FinishFromResponseStatus(status)) == ClaudeStopFromResponseStatus(status)
  {
  }
}
