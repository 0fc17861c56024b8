/** Responses upstream to Anthropic Messages client, streaming. */
module ResponsesToClaude {
  import opened Basics
  import opened Wire
  import opened LineFeed
  import opened FrameFeed
  import opened ToolTracking
  import opened ResponsesEvents
  import opened ClaudeClient
  import Framing

  // ---- the specification ----

  /** open is the block that is open; textOpen and textIndex are kept apart from
      it because the terminal event stops the blocks but leaves textOpen alone. */
  datatype State = State(id: string, model: string, table: Table, next: nat, open: Option<nat>, textOpen: bool,
                         textIndex: int, toolsSeen: bool)

  function Initial(): State {
    State("opencode-go", "", NO_CALLS, 0, None, false, -1, false)
  }

  function Closed(s: State): State {
    if s.open.None? then s else s.(open := None, textOpen := false)
  }

  function Closing(s: State): seq<ClaudeEvent> {
    if s.open.None? then [] else [BlockStop(s.open.value)]
  }

  function OnText(s: State, delta: string): (State, seq<ClaudeEvent>) {
    if s.textOpen then (s, [BlockText(s.textIndex, delta)])
    else
      var i := s.next;
      (Closed(s).(next := i + 1, textIndex := i, textOpen := true, open := Some(i)),
       Closing(s) + [TextStart(i)] + [BlockText(i, delta)])
  }

  /** A call seen for the first time opens its block. */
  function OpenCall(s: State, seen: Sighting, id: string, name: string): (State, seq<ClaudeEvent>) {
    if seen.first then
      (Closed(s).(table := seen.table, next := s.next + 1, open := Some(seen.index)),
       Closing(s) + [ToolStart(seen.index, id, name)])
    else (s.(table := seen.table), [])
  }

  function OnItem(s: State, item: CallItem): (State, seq<ClaudeEvent>) {
    if item.kind != "function_call" then (s, [])
    else
      var seen := Observed(s.table, s.next, item.callId, item.id, item.arguments != "");
      var (s1, e1) := OpenCall(s.(toolsSeen := true), seen, item.callId, item.name);
      (s1, e1 + if seen.deliver then [BlockJson(seen.index, item.arguments)] else [])
  }

  function OnFragment(s: State, itemId: string, delta: string): (State, seq<ClaudeEvent>) {
    var seen := Streamed(s.table, s.next, itemId);
    var (s1, e1) := OpenCall(s, seen, itemId, "");
    (s1, e1 + [BlockJson(seen.index, delta)])
  }

  function StopReason(s: State, incomplete: bool): string {
    TerminalReason(s.toolsSeen, "tool_use", ClaudeStopFromResponseStatus(StatusOf(incomplete)))
  }

  function ClaudeUsageOf(input: int, output: int, d: UsageDetails): ClaudeUsage {
    ClaudeUsage(ClampSubtract(input, d.cached, d.cacheWrite), output, d.cached, d.cacheWrite)
  }

  function OnTerminal(s: State, incomplete: bool, input: int, output: int, d: UsageDetails): (State, seq<ClaudeEvent>) {
    (s.(open := None),
     Closing(s) + [MessageDelta(StopReason(s, incomplete), ClaudeUsageOf(input, output, d)), MessageStop])
  }

  function OnEvent(s: State, ev: UpEvent): Step<State, ClaudeEvent> {
    match ev
    case Created(id, model) =>
      var s' := s.(id := Captured(s.id, id), model := Captured(s.model, model));
      Step(s', [MessageStart(s'.id, s'.model, 0)], false, None)
    case OutputText(delta) =>
      var (s', events) := OnText(s, delta);
      Step(s', events, false, None)
    case OutputItem(item) =>
      var (s', events) := OnItem(s, item);
      Step(s', events, false, None)
    case ArgsFragment(itemId, delta) =>
      var (s', events) := OnFragment(s, itemId, delta);
      Step(s', events, false, None)
    case Terminal(incomplete, input, output, d) =>
      var (s', events) := OnTerminal(s, incomplete, input, output, d);
      Step(s', events, true, None)
    case Failed(f) => Step(s, [], false, Some(f))
    case Informational => Step(s, [], false, None)
  }

  function OnFrame(decode: Decoder, s: State, frame: Framing.Frame): Step<State, ClaudeEvent> {
    match decode(frame)
    case Err(f) => Step(s, [], false, Some(f))
    case Ok(ev) => OnEvent(s, ev)
  }

  function Frames(decode: Decoder): Dispatcher<State, ClaudeEvent> {
    (s, frame) => OnFrame(decode, s, frame)
  }

  // ---- the converter ----

  class StreamConverter {
    const decode: Decoder
    const framer: Framing.SSEFramer
    const counter: Counter
    const tracker: ToolTracker
    var id: string
    var model: string
    var toolCallsSeen: bool
    var textIndex: int
    var textOpen: bool
    var openBlocks: seq<nat>

    ghost predicate Valid()
      reads this, counter, tracker, tracker.states
    {
      tracker.counter == counter && tracker.Valid() && |openBlocks| <= 1
    }

    ghost function Abs(): State
      reads this, counter, tracker
    {
      State(id, model, tracker.table, counter.next, if openBlocks == [] then None else Some(openBlocks[0]),
            textOpen, textIndex, toolCallsSeen)
    }

    constructor (decode: Decoder)
      ensures Valid() && Abs() == Initial() && this.decode == decode
      ensures fresh(framer) && fresh(counter) && fresh(tracker) && fresh(tracker.states)
      ensures framer.buf == "" && framer.Current() == Framing.EMPTY && !framer.wantRaw
    {
      this.decode := decode;
      framer := new Framing.SSEFramer(false);
      var c := new Counter();
      counter := c;
      tracker := new ToolTracker(c);
      id, model, toolCallsSeen := "opencode-go", "", false;
      textIndex, textOpen, openBlocks := -1, false, [];
    }

    /** Stops every open block; a later text delta opens a new one. */
    method CloseOpenBlocks() returns (events: seq<ClaudeEvent>)
      requires Valid()
      modifies this`openBlocks, this`textOpen
      ensures Valid() && Abs() == Closed(old(Abs())) && events == Closing(old(Abs())) && openBlocks == []
    {
      if |openBlocks| == 0 { return []; }
      events := [];
      for k := 0 to |openBlocks|
        invariant events == if k == 0 then [] else [BlockStop(openBlocks[0])]
        invariant Valid() && Abs() == old(Abs()) && openBlocks != []
      {
        events := events + [BlockStop(openBlocks[k])];
      }
      openBlocks := [];
      textOpen := false;
    }

    method Text(delta: string) returns (events: seq<ClaudeEvent>)
      requires Valid()
      modifies this`openBlocks, this`textOpen, this`textIndex, counter
      ensures Valid() && (Abs(), events) == OnText(old(Abs()), delta)
    {
      events := [];
      if !textOpen {
        events := CloseOpenBlocks();
        textIndex := counter.Alloc();
        textOpen := true;
        openBlocks := openBlocks + [textIndex];
        events := events + [TextStart(textIndex)];
      } else {
        assert [] + [BlockText(textIndex, delta)] == [BlockText(textIndex, delta)];
      }
      events := events + [BlockText(textIndex, delta)];
    }

    method Open(index: nat, callId: string, name: string) returns (events: seq<ClaudeEvent>)
      requires Valid()
      modifies this`openBlocks, this`textOpen
      ensures Valid() && Abs() == Closed(old(Abs())).(open := Some(index))
      ensures events == Closing(old(Abs())) + [ToolStart(index, callId, name)]
    {
      events := CloseOpenBlocks();
      openBlocks := openBlocks + [index];
      events := events + [ToolStart(index, callId, name)];
    }

    method Item(item: CallItem) returns (events: seq<ClaudeEvent>)
      requires Valid()
      modifies this`openBlocks, this`textOpen, this`toolCallsSeen, counter, tracker, tracker.states
      ensures Valid() && (Abs(), events) == OnItem(old(Abs()), item) && fresh(tracker.states - old(tracker.states))
    {
      hide Observed;
      events := [];
      if item.kind != "function_call" { return; }
      toolCallsSeen := true;
      var first, index, deliver := tracker.Observe(item.callId, item.id, item.arguments != "");
      if first {
        events := Open(index, item.callId, item.name);
      }
      if deliver {
        events := events + [BlockJson(index, item.arguments)];
      } else {
        assert events + [] == events;
      }
    }

    method Fragment(itemId: string, delta: string) returns (events: seq<ClaudeEvent>)
      requires Valid()
      modifies this`openBlocks, this`textOpen, counter, tracker, tracker.states
      ensures Valid() && (Abs(), events) == OnFragment(old(Abs()), itemId, delta)
              && fresh(tracker.states - old(tracker.states))
    {
      hide Streamed;
      events := [];
      var first, index := tracker.StreamArgs(itemId);
      if first {
        events := Open(index, itemId, "");
      }
      events := events + [BlockJson(index, delta)];
    }

    method Finish(incomplete: bool, input: int, output: int, d: UsageDetails) returns (events: seq<ClaudeEvent>)
      requires Valid()
      modifies this`openBlocks
      ensures Valid() && (Abs(), events) == OnTerminal(old(Abs()), incomplete, input, output, d)
    {
      var status := if incomplete then "incomplete" else "completed";
      var stop := TerminalReason(toolCallsSeen, "tool_use", ClaudeStopFromResponseStatus(status));
      events := [];
      for k := 0 to |openBlocks|
        invariant events == if k == 0 then [] else [BlockStop(openBlocks[0])]
        invariant Valid() && Abs() == old(Abs())
      {
        events := events + [BlockStop(openBlocks[k])];
      }
      openBlocks := [];
      events := events + [MessageDelta(stop, ClaudeUsageOf(input, output, d)), MessageStop];
    }

    method Convert(ev: UpEvent) returns (events: seq<ClaudeEvent>, done: bool, err: Option<Failure>)
      requires Valid()
      modifies this`id, this`model, this`openBlocks, this`textOpen, this`textIndex, this`toolCallsSeen,
               counter, tracker, tracker.states
      ensures Valid() && Step(Abs(), events, done, err) == OnEvent(old(Abs()), ev)
              && fresh(tracker.states - old(tracker.states))
    {
      hide OnText, OnItem, OnFragment, OnTerminal;
      events, done, err := [], false, None;
      match ev
      case Created(newId, newModel) =>
        if newId != "" { id := newId; }
        if newModel != "" { model := newModel; }
        events := [MessageStart(id, model, 0)];
      case OutputText(delta) => events := Text(delta);
      case OutputItem(item) => events := Item(item);
      case ArgsFragment(itemId, delta) => events := Fragment(itemId, delta);
      case Terminal(incomplete, input, output, d) =>
        events := Finish(incomplete, input, output, d);
        done := true;
      case Failed(f) => err := Some(f);
      case Informational =>
    }

    /** One network chunk.  A terminal event does not end the loop: frames that
        follow it in the same chunk are converted too. */
    method Feed(chunk: string) returns (events: seq<ClaudeEvent>, done: bool, err: Option<Failure>)
      requires Valid() && !framer.wantRaw
      modifies this`id, this`model, this`openBlocks, this`textOpen, this`textIndex, this`toolCallsSeen,
               framer, counter, tracker, tracker.states
      ensures Valid() && fresh(tracker.states - old(tracker.states))
      ensures Fed(Reader(framer.Current(), Abs()), framer.buf, events, done, err)
              == Consume(Lines(false, Frames(decode)), false, old(Reader(framer.Current(), Abs())), false,
                         old(framer.buf) + chunk)
    {
      hide OnEvent, Framing.NextFrame, Consume, Valid, Abs;
      ghost var s0 := Abs();
      framer.Push(chunk);
      events, done := [], false;
      ghost var d := Frames(decode);
      ghost var whole := Consume(Lines(false, d), false, Reader(framer.Current(), Abs()), false, framer.buf);
      while true
        invariant Valid() && fresh(tracker.states - old(tracker.states))
        invariant var later := Consume(Lines(false, d), false, Reader(framer.Current(), Abs()), done, framer.buf);
                  whole == later.(events := events + later.events)
        decreases |framer.buf|
      {
        ghost var r, buf, e0, was := Reader(framer.Current(), Abs()), framer.buf, events, done;
        ConsumeByFrame(false, d, false, r, was, buf);
        var frame := framer.Next();
        if frame.None? {
          assert events + [] == events;
          return events, done, None;
        }
        assert d(r.state, frame.value) == OnFrame(decode, r.state, frame.value);
        var more, ended;
        more, ended, err := Handle(frame.value);
        events := events + more;
        if err.Some? { return events, false, err; }
        done := done || ended;
        ghost var later := Consume(Lines(false, d), false, Reader(framer.Current(), Abs()), done, framer.buf);
        assert e0 + (more + later.events) == events + later.events;
      }
    }

    method Handle(frame: Framing.Frame) returns (events: seq<ClaudeEvent>, done: bool, err: Option<Failure>)
      requires Valid()
      modifies this`id, this`model, this`openBlocks, this`textOpen, this`textIndex, this`toolCallsSeen,
               counter, tracker, tracker.states
      ensures Valid() && Step(Abs(), events, done, err) == OnFrame(decode, old(Abs()), frame)
      ensures fresh(tracker.states - old(tracker.states))
    {
      hide OnEvent;
      match decode(frame)
      case Err(f) => return [], false, Some(f);
      case Ok(ev) => events, done, err := Convert(ev);
    }
  }
}
