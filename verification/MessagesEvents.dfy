/** An upstream Anthropic Messages stream, event by event. */
module MessagesEvents {
  import opened Basics
  import opened LineFeed
  import Framing

  /** Token counts as the upstream reported them. */
  datatype Counts = Counts(input: int, output: int, cacheRead: Option<int>, cacheWrite: Option<int>)

  const NO_COUNTS := Counts(0, 0, None, None)

  /** The union of all payload shapes; absent members have their zero values. */
  datatype Payload = Payload(kind: string, index: int, id: string, model: string, startUsage: Counts,
                             blockKind: string, blockId: string, blockName: string,
                             deltaKind: string, text: string, partialJson: string, stopReason: string,
                             usage: Counts, error: Failure)

  const BLANK := Payload("", 0, "", "", NO_COUNTS, "", "", "", "", "", "", "", NO_COUNTS, Failure(""))

  /** Decodes one data payload; the decoder is arbitrary. */
  type Decoder = string -> Result<Payload, Failure>

  datatype Event =
    | MessageStart(id: string, model: string, usage: Counts)
    | BlockStart(index: int, kind: string, id: string, name: string)
    | TextFragment(index: int, text: string)
    | JsonFragment(index: int, partial: string)
    | MessageDelta(stopReason: string, usage: Counts)
    | MessageStop
    | Failed(failure: Failure)
    | Other

  /** Thinking deltas, block stops, pings and unknown events carry nothing over. */
  function EventOf(etype: string, p: Payload): Event {
    match etype
    case "message_start" => MessageStart(p.id, p.model, p.startUsage)
    case "content_block_start" => BlockStart(p.index, p.blockKind, p.blockId, p.blockName)
    case "content_block_delta" =>
      if p.deltaKind == "text_delta" then TextFragment(p.index, p.text)
      else if p.deltaKind == "input_json_delta" then JsonFragment(p.index, p.partialJson)
      else Other
    case "message_delta" => MessageDelta(p.stopReason, p.usage)
    case "message_stop" => MessageStop
    case "error" => Failed(p.error)
    case _ => Other
  }

  /** The event name falls back to the payload's own type. */
  function Decode(decode: Decoder, frame: Framing.Frame): Result<Event, Failure> {
    if frame.data == "" then Ok(EventOf(frame.eventType, BLANK))
    else match decode(frame.data)
      case Err(f) => Err(f)
      case Ok(p) => Ok(EventOf(if frame.eventType == "" then p.kind else frame.eventType, p))
  }

  const ORPHAN_FRAGMENT := Failure("tool arguments fragment without a tool_use block start")
}
