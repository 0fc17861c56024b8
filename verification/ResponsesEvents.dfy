/** An upstream Responses stream, event by event, as the conversion targets read it. */
module ResponsesEvents {
  import opened Basics
  import opened LineFeed
  import opened Wire
  import Framing

  datatype CallItem = CallItem(kind: string, callId: string, id: string, name: string, arguments: string)

  datatype UpEvent =
    | Created(id: string, model: string)
    | OutputText(delta: string)
    | OutputItem(item: CallItem)  // output_item.added and output_item.done alike
    | ArgsFragment(itemId: string, delta: string)
    | Terminal(incomplete: bool, input: int, output: int, details: UsageDetails)
    | Failed(failure: Failure)
    | Informational

  /** Decodes one frame by its event name; malformed payloads fail.  The converters
      work with any decoder. */
  type Decoder = Framing.Frame -> Result<UpEvent, Failure>

  /** The union of all payload shapes; absent members have their zero values. */
  datatype Payload = Payload(id: string, model: string, delta: string, item: CallItem, itemId: string, input: int,
                             output: int, details: UsageDetails, failure: Failure)

  const BLANK := Payload("", "", "", CallItem("", "", "", "", ""), "", 0, 0, NO_DETAILS, Failure(""))

  function EventOf(name: string, p: Payload): UpEvent {
    match name
    case "response.created" => UpEvent.Created(p.id, p.model)
    case "response.output_text.delta" => OutputText(p.delta)
    case "response.output_item.added" => OutputItem(p.item)
    case "response.output_item.done" => OutputItem(p.item)
    case "response.function_call_arguments.delta" => ArgsFragment(p.itemId, p.delta)
    case "response.completed" => Terminal(false, p.input, p.output, p.details)
    case "response.incomplete" => Terminal(true, p.input, p.output, p.details)
    case "response.failed" => Failed(p.failure)
    case "error" => Failed(p.failure)
    case _ => Informational
  }

  /** The decoder that the converters use, over any decoding of payloads under their
      event names; an empty payload has nothing in it. */
  function Named(decode: (string, string) -> Result<Payload, Failure>): Decoder {
    (frame: Framing.Frame) =>
      if frame.data == "" then Ok(EventOf(frame.eventType, BLANK))
      else match decode(frame.eventType, frame.data)
        case Err(f) => Err(f)
        case Ok(p) => Ok(EventOf(frame.eventType, p))
  }

  /** Only non-empty members of response.created replace the identity. */
  function Captured(before: string, given: string): string {
    if given != "" then given else before
  }

  function StatusOf(incomplete: bool): string {
    if incomplete then "incomplete" else "completed"
  }
}
