/** Responses upstream to Chat Completions client, streaming. */
module ResponsesToOpenAI {
  import opened Basics
  import opened Wire
  import opened LineFeed
  import opened FrameFeed
  import opened ToolTracking
  import opened ResponsesEvents
  import opened ChatClient
  import Framing

  // ---- the specification ----

  datatype State = State(id: string, model: string, table: Table, next: nat, toolsSeen: bool)

  function Initial(): State {
    State("opencode-go", "", NO_CALLS, 0, false)
  }

  /** The first sighting announces the call, with whatever arguments came along;
      later ones add theirs if they are to be delivered. */
  function CallEntry(seen: Sighting, id: string, name: string, arguments: string): seq<ChatEvent> {
    if seen.first then [OpeningEntry(seen.index, id, name, if seen.deliver then arguments else "")]
    else if seen.deliver then [ArgumentsEntry(seen.index, arguments)]
    else []
  }

  function OnItem(s: State, item: CallItem): (State, seq<ChatEvent>) {
    if item.kind != "function_call" then (s, [])
    else
      var seen := Observed(s.table, s.next, item.callId, item.id, item.arguments != "");
      (s.(table := seen.table, next := if seen.first then s.next + 1 else s.next, toolsSeen := true),
       CallEntry(seen, item.callId, item.name, item.arguments))
  }

  function OnFragment(s: State, itemId: string, delta: string): (State, seq<ChatEvent>) {
    var seen := Streamed(s.table, s.next, itemId);
    (s.(table := seen.table, next := if seen.first then s.next + 1 else s.next, toolsSeen := true),
     CallEntry(seen, itemId, "", delta))
  }

  function Ending(s: State, incomplete: bool, input: int, output: int, d: UsageDetails): ChatEvent {
    FinishChunk(TerminalReason(s.toolsSeen, "tool_calls", FinishFromResponseStatus(StatusOf(incomplete))),
                ChatUsageFrom(input, output, d))
  }

  function OnEvent(s: State, ev: UpEvent): Step<State, ChatEvent> {
    match ev
    case Created(id, model) =>
      var s' := s.(id := Captured(s.id, id), model := Captured(s.model, model));
      Step(s', [RoleChunk(s'.id, s'.model)], false, None)
    case OutputText(delta) => Step(s, [ContentChunk(delta)], false, None)
    case OutputItem(item) =>
      var (s', events) := OnItem(s, item);
      Step(s', events, false, None)
    case ArgsFragment(itemId, delta) =>
      var (s', events) := OnFragment(s, itemId, delta);
      Step(s', events, false, None)
    case Terminal(incomplete, input, output, d) => Step(s, [Ending(s, incomplete, input, output, d)], true, None)
    case Failed(f) => Step(s, [], false, Some(f))
    case Informational => Step(s, [], false, None)
  }

  function OnFrame(decode: Decoder, s: State, frame: Framing.Frame): Step<State, ChatEvent> {
    match decode(frame)
    case Err(f) => Step(s, [], false, Some(f))
    case Ok(ev) => OnEvent(s, ev)
  }

  function Frames(decode: Decoder): Dispatcher<State, ChatEvent> {
    (s, frame) => OnFrame(decode, s, frame)
  }

  // ---- the converter ----

  class StreamConverter {
    const decode: Decoder
    const framer: Framing.SSEFramer
    const counter: Counter
    const tracker: ToolTracker
    var id: string
    var model: string
    var toolCallsSeen: bool

    ghost predicate Valid()
      reads this, counter, tracker, tracker.states
    {
      tracker.counter == counter && tracker.Valid()
    }

    ghost function Abs(): State
      reads this, counter, tracker
    {
      State(id, model, tracker.table, counter.next, toolCallsSeen)
    }

    constructor (decode: Decoder)
      ensures Valid() && Abs() == Initial() && this.decode == decode
      ensures fresh(framer) && fresh(counter) && fresh(tracker) && fresh(tracker.states)
      ensures framer.buf == "" && framer.Current() == Framing.EMPTY && !framer.wantRaw
    {
      this.decode := decode;
      framer := new Framing.SSEFramer(false);
      var c := new Counter();
      counter := c;
      tracker := new ToolTracker(c);
      id, model, toolCallsSeen := "opencode-go", "", false;
    }

    method Item(item: CallItem) returns (events: seq<ChatEvent>)
      requires Valid()
      modifies this`toolCallsSeen, counter, tracker, tracker.states
      ensures Valid() && (Abs(), events) == OnItem(old(Abs()), item) && fresh(tracker.states - old(tracker.states))
    {
      hide Observed;
      if item.kind != "function_call" { return []; }
      toolCallsSeen := true;
      var first, index, deliver := tracker.Observe(item.callId, item.id, item.arguments != "");
      if first {
        var entryArgs := "";
        if deliver { entryArgs := item.arguments; }
        return [OpeningEntry(index, item.callId, item.name, entryArgs)];
      }
      if deliver { return [ArgumentsEntry(index, item.arguments)]; }
      return [];
    }

    method Fragment(itemId: string, delta: string) returns (events: seq<ChatEvent>)
      requires Valid()
      modifies this`toolCallsSeen, counter, tracker, tracker.states
      ensures Valid() && (Abs(), events) == OnFragment(old(Abs()), itemId, delta)
              && fresh(tracker.states - old(tracker.states))
    {
      hide Resolve;
      var first, index := tracker.StreamArgs(itemId);
      toolCallsSeen := true;
      if first { return [OpeningEntry(index, itemId, "", delta)]; }
      return [ArgumentsEntry(index, delta)];
    }

    method Convert(ev: UpEvent) returns (events: seq<ChatEvent>, done: bool, err: Option<Failure>)
      requires Valid()
      modifies this`id, this`model, this`toolCallsSeen, counter, tracker, tracker.states
      ensures Valid() && Step(Abs(), events, done, err) == OnEvent(old(Abs()), ev)
              && fresh(tracker.states - old(tracker.states))
    {
      hide OnItem, OnFragment;
      events, done, err := [], false, None;
      match ev
      case Created(newId, newModel) =>
        if newId != "" { id := newId; }
        if newModel != "" { model := newModel; }
        events := [RoleChunk(id, model)];
      case OutputText(delta) => events := [ContentChunk(delta)];
      case OutputItem(item) => events := Item(item);
      case ArgsFragment(itemId, delta) => events := Fragment(itemId, delta);
      case Terminal(incomplete, input, output, d) =>
        var status := if incomplete then "incomplete" else "completed";
        var finish := TerminalReason(toolCallsSeen, "tool_calls", FinishFromResponseStatus(status));
        events := [FinishChunk(finish, ChatUsageFrom(input, output, d))];
        done := true;
      case Failed(f) => err := Some(f);
      case Informational =>
    }

    /** One network chunk.  A terminal event does not end the loop. */
    method Feed(chunk: string) returns (events: seq<ChatEvent>, done: bool, err: Option<Failure>)
      requires Valid() && !framer.wantRaw
      modifies this`id, this`model, this`toolCallsSeen, framer, counter, tracker, tracker.states
      ensures Valid() && fresh(tracker.states - old(tracker.states))
      ensures Fed(Reader(framer.Current(), Abs()), framer.buf, events, done, err)
              == Consume(Lines(false, Frames(decode)), false, old(Reader(framer.Current(), Abs())), false,
                         old(framer.buf) + chunk)
    {
      hide OnEvent, Framing.NextFrame, Consume, Valid, Abs;
      ghost var s0 := Abs();
      framer.Push(chunk);
      events, done := [], false;
      ghost var d := Frames(decode);
      ghost var whole := Consume(Lines(false, d), false, Reader(framer.Current(), Abs()), false, framer.buf);
      while true
        invariant Valid() && fresh(tracker.states - old(tracker.states))
        invariant var later := Consume(Lines(false, d), false, Reader(framer.Current(), Abs()), done, framer.buf);
                  whole == later.(events := events + later.events)
        decreases |framer.buf|
      {
        ghost var r, buf, e0, was := Reader(framer.Current(), Abs()), framer.buf, events, done;
        ConsumeByFrame(false, d, false, r, was, buf);
        var frame := framer.Next();
        if frame.None? {
          assert events + [] == events;
          return events, done, None;
        }
        assert d(r.state, frame.value) == OnFrame(decode, r.state, frame.value);
        var more, ended;
        more, ended, err := Handle(frame.value);
        events := events + more;
        if err.Some? { return events, false, err; }
        done := done || ended;
        ghost var later := Consume(Lines(false, d), false, Reader(framer.Current(), Abs()), done, framer.buf);
        assert e0 + (more + later.events) == events + later.events;
      }
    }

    method Handle(frame: Framing.Frame) returns (events: seq<ChatEvent>, done: bool, err: Option<Failure>)
      requires Valid()
      modifies this`id, this`model, this`toolCallsSeen, counter, tracker, tracker.states
      ensures Valid() && Step(Abs(), events, done, err) == OnFrame(decode, old(Abs()), frame)
      ensures fresh(tracker.states - old(tracker.states))
    {
      hide OnEvent;
      match decode(frame)
      case Err(f) => return [], false, Some(f);
      case Ok(ev) => events, done, err := Convert(ev);
    }
  }
}
