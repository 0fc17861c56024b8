/** An upstream Chat Completions stream, line by line. */
module ChatChunks {
  import opened Basics
  import opened LineFeed

  /** One tool_calls entry of a delta; index is the upstream's own numbering. */
  datatype ToolCallDelta = ToolCallDelta(index: int, id: string, name: string, arguments: string)

  datatype Choice = Choice(content: string, toolCalls: seq<ToolCallDelta>, finish: string)

  datatype Usage = Usage(prompt: int, completion: int, cached: Option<int>, reasoning: Option<int>)

  datatype Chunk = Chunk(id: string, model: string, choices: seq<Choice>, usage: Option<Usage>)

  /** The usage reported last. */
  function LastUsage(chunks: seq<Chunk>): Option<Usage> {
    if chunks == [] then None
    else
      var last := chunks[|chunks| - 1];
      if last.usage.Some? then last.usage else LastUsage(chunks[..|chunks| - 1])
  }

  /** Decodes one data payload; malformed JSON and in-stream error objects fail.
      The decoder is arbitrary: nothing below depends on JSON. */
  type Decoder = string -> Result<Chunk, Failure>

  datatype Line = Skip | Done | Data(payload: string)

  function IsSSEDone(payload: string): bool {
    TrimSpace(payload) == "[DONE]"
  }

  /** Comments, event names and blank lines are skipped. */
  function Classify(line: string): Line {
    if "data:" <= line then
      var payload := TrimSpace(line[5..]);
      if payload == "" then Skip else if IsSSEDone(payload) then Done else Data(payload)
    else Skip
  }

  /** Reading a stream for its chunks alone: the state is the chunks so far. */
  function Gather(decode: Decoder): Handler<seq<Chunk>, ()> {
    (chunks, line) =>
      match Classify(TrimCR(line))
      case Skip => Step(chunks, [], false, None)
      case Done => Step(chunks, [], true, None)
      case Data(payload) =>
        match decode(payload)
        case Err(f) => Step(chunks, [], false, Some(f))
        case Ok(chunk) => Step(chunks + [chunk], [], false, None)
  }

  /** The chunks of a byte stream up to [DONE] or the first failure. */
  function Gathered(decode: Decoder, bytes: string): Fed<seq<Chunk>, ()> {
    Consume(Gather(decode), true, [], false, bytes)
  }
}
