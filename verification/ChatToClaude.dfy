/** Chat Completions upstream to Anthropic Messages client, streaming. */
module ChatToClaude {
  import opened Basics
  import opened Wire
  import opened LineFeed
  import opened ChatChunks
  import opened ChatUnits
  import opened ClaudeClient

  // ---- the specification: one block open at a time ----

  datatype Open = Nothing | TextAt(index: nat) | ToolAt(index: nat)

  /** slots gives the block of each upstream tool index; held is the finish
      reason whose message_delta has not been emitted, sent tells that it has. */
  datatype State = State(count: nat, open: Open, slots: map<int, nat>, started: bool,
                         usage: Option<Usage>, finished: bool, held: string, sent: bool)

  function Initial(): State {
    State(0, Nothing, map[], false, None, false, "", false)
  }

  function Closing(s: State): seq<ClaudeEvent> {
    if s.open.Nothing? then [] else [BlockStop(s.open.index)]
  }

  function ClaudeUsageOf(u: Option<Usage>): ClaudeUsage {
    match u
    case None => ClaudeUsage(0, 0, None, None)
    case Some(u) => ClaudeUsage(ClampSubtract(u.prompt, u.cached, None), u.completion, u.cached, None)
  }

  function StopReason(toolsSeen: bool, finish: string): string {
    TerminalReason(toolsSeen, "tool_use", FinishToClaudeStop(finish))
  }

  function TerminalOf(s: State): (State, seq<ClaudeEvent>) {
    if s.held == "" then (s, [])
    else (s.(held := "", sent := true), [MessageDelta(StopReason(s.slots != map[], s.held), ClaudeUsageOf(s.usage))])
  }

  function OnSay(s: State, text: string): (State, seq<ClaudeEvent>) {
    if s.open.TextAt? then (s, [BlockText(s.open.index, text)])
    else (s.(count := s.count + 1, open := TextAt(s.count)),
          Closing(s) + [TextStart(s.count)] + [BlockText(s.count, text)])
  }

  function OpenCall(s: State, tc: ToolCallDelta): (r: (State, seq<ClaudeEvent>))
    ensures tc.index in r.0.slots
  {
    if tc.index in s.slots then (s, [])
    else (s.(count := s.count + 1, open := ToolAt(s.count), slots := s.slots[tc.index := s.count]),
          Closing(s) + [ToolStart(s.count, tc.id, tc.name)])
  }

  function FeedCall(s: State, tc: ToolCallDelta): seq<ClaudeEvent>
    requires tc.index in s.slots
  {
    if tc.arguments == "" then [] else [BlockJson(s.slots[tc.index], tc.arguments)]
  }

  function OnEntry(s: State, tc: ToolCallDelta): (State, seq<ClaudeEvent>) {
    var (s1, e1) := OpenCall(s, tc);
    (s1, e1 + FeedCall(s1, tc))
  }

  function OnFinish(s: State, finish: string): (State, seq<ClaudeEvent>) {
    if s.finished then (s, []) else (s.(finished := true, held := finish, open := Nothing), Closing(s))
  }

  function OnUnit(s: State, u: Unit): (State, seq<ClaudeEvent>) {
    match u
    case Say(t) => OnSay(s, t)
    case Entry(tc) => OnEntry(s, tc)
    case Finish(f) => OnFinish(s, f)
  }

  function OnUnits(s: State, units: seq<Unit>): (State, seq<ClaudeEvent>) {
    if units == [] then (s, [])
    else
      var (s1, e1) := OnUnits(s, units[..|units| - 1]);
      var (s2, e2) := OnUnit(s1, units[|units| - 1]);
      (s2, e1 + e2)
  }

  function OnStart(s: State, chunk: Chunk): (State, seq<ClaudeEvent>) {
    if s.started || chunk.choices == [] then (s, [])
    else (s.(started := true),
          [MessageStart(chunk.id, chunk.model, match chunk.usage case Some(u) => u.prompt case None => 0)])
  }

  function Counted(s: State, usage: Option<Usage>): State {
    if usage.Some? then s.(usage := usage) else s
  }

  function OnChunk(s: State, chunk: Chunk): (State, seq<ClaudeEvent>) {
    var (s1, e1) := TerminalOf(Counted(s, chunk.usage));
    var (s2, e2) := OnStart(s1, chunk);
    var (s3, e3) := OnUnits(s2, ChunkUnits(chunk));
    (s3, e1 + e2 + e3)
  }

  /** What [DONE] adds. */
  function Ending(s: State): (State, seq<ClaudeEvent>) {
    var (s1, e1) := TerminalOf(s.(open := Nothing));
    (s1, Closing(s) + e1 + [MessageStop])
  }

  /** What a close without [DONE] adds: message_stop only for a finished turn. */
  function Flushing(s: State): (State, seq<ClaudeEvent>) {
    var (s1, e1) := TerminalOf(s);
    (s1, if s1.sent then e1 + [MessageStop] else e1)
  }

  function OnLine(decode: Decoder, s: State, line: string): Step<State, ClaudeEvent> {
    match Classify(TrimCR(line))
    case Skip => Step(s, [], false, None)
    case Done =>
      var (s', events) := Ending(s);
      Step(s', events, true, None)
    case Data(payload) =>
      match decode(payload)
      case Err(f) => Step(s, [], false, Some(f))
      case Ok(chunk) =>
        var (s', events) := OnChunk(s, chunk);
        Step(s', events, false, None)
  }

  function Lines(decode: Decoder): Handler<State, ClaudeEvent> {
    (s, line) => OnLine(decode, s, line)
  }

  lemma {:induction false} UnitsAppend(s: State, a: seq<Unit>, b: seq<Unit>)
    ensures var (s1, e1) := OnUnits(s, a);
            var (s2, e2) := OnUnits(s1, b);
            OnUnits(s, a + b) == (s2, e1 + e2)
    decreases |b|
  {
    hide OnUnit;
    if b == [] {
      assert a + b == a;
      assert OnUnits(s, a).1 + [] == OnUnits(s, a).1;
    } else {
      assert (a + b)[..|a + b| - 1] == a + b[..|b| - 1];
      UnitsAppend(s, a, b[..|b| - 1]);
      var (s1, e1) := OnUnits(s, a);
      var (s2, e2) := OnUnits(s1, b[..|b| - 1]);
      var (s3, e3) := OnUnit(s2, b[|b| - 1]);
      assert e1 + e2 + e3 == e1 + (e2 + e3);
    }
  }

  lemma UnitOne(s: State, u: Unit)
    ensures OnUnits(s, [u]) == OnUnit(s, u)
  {
    hide OnUnit;
    assert [u][..0] == [];
    var (s', e) := OnUnit(s, u);
    assert [] + e == e;
  }

  // ---- the converter ----

  datatype StreamTool = StreamTool(blockIndex: nat, id: string, name: string, stopped: bool)

  /** Which block the fields say is open: the text block, else the tool that
      arrived last unless it was stopped; every earlier tool is stopped. */
  ghost predicate Describes(textOpen: bool, textIndex: nat, tools: map<int, StreamTool>, order: seq<int>,
                            open: Open, slots: map<int, nat>)
  {
    && tools.Keys == slots.Keys
    && (forall i | i in slots :: i in order && tools[i].blockIndex == slots[i])
    && (forall k | 0 <= k < |order| :: order[k] in tools)
    && (forall j, k | 0 <= j < k < |order| :: order[j] != order[k])
    && (forall k | 0 <= k < |order| - 1 :: tools[order[k]].stopped)
    && match open
       case Nothing => !textOpen && AllStopped(tools, order)
       case TextAt(b) => textOpen && textIndex == b && AllStopped(tools, order)
       case ToolAt(b) => !textOpen && order != [] && !tools[order[|order| - 1]].stopped
                         && tools[order[|order| - 1]].blockIndex == b
  }

  ghost predicate AllStopped(tools: map<int, StreamTool>, order: seq<int>)
    requires forall k | 0 <= k < |order| :: order[k] in tools
  {
    forall k | 0 <= k < |order| :: tools[order[k]].stopped
  }

  lemma DescribesNewText(textIndex: nat, index: nat, tools: map<int, StreamTool>, order: seq<int>, slots: map<int, nat>)
    requires Describes(false, textIndex, tools, order, Nothing, slots)
    ensures Describes(true, index, tools, order, TextAt(index), slots)
  {
  }

  lemma DescribesNewTool(textIndex: nat, tools: map<int, StreamTool>, order: seq<int>, slots: map<int, nat>,
                         index: int, t: StreamTool)
    requires Describes(false, textIndex, tools, order, Nothing, slots) && index !in slots && !t.stopped
    ensures Describes(false, textIndex, tools[index := t], order + [index], ToolAt(t.blockIndex),
                      slots[index := t.blockIndex])
  {
    var order' := order + [index];
    assert order'[|order|] == index;
    forall k | 0 <= k < |order| ensures order'[k] != index { assert order'[k] == order[k]; }
    forall i | i in slots ensures i in order' {
      var k :| 0 <= k < |order| && order[k] == i;
      assert order'[k] == i;
    }
  }

  lemma DescribesSlot(textOpen: bool, textIndex: nat, tools: map<int, StreamTool>, order: seq<int>,
                      open: Open, slots: map<int, nat>, index: int)
    requires Describes(textOpen, textIndex, tools, order, open, slots)
    ensures index in tools <==> index in slots
    ensures index in slots ==> tools[index].blockIndex == slots[index]
    ensures order != [] <==> slots != map[]
    ensures textOpen <==> open.TextAt?
    ensures textOpen ==> textIndex == open.index
  {
    if order != [] {
      assert order[0] in slots;
    } else {
      assert forall i :: i in slots ==> i in order;
      assert forall i :: i !in slots;
    }
  }

  /** The stops of the tools from the k-th on: at most the last one is open. */
  ghost function Stops(tools: map<int, StreamTool>, order: seq<int>, k: nat): seq<ClaudeEvent>
    requires forall j | 0 <= j < |order| :: order[j] in tools
  {
    if k >= |order| || tools[order[|order| - 1]].stopped then []
    else [BlockStop(tools[order[|order| - 1]].blockIndex)]
  }

  /** The first k tools have been stopped, the others are as before. */
  ghost predicate Stopping(before: map<int, StreamTool>, tools: map<int, StreamTool>, order: seq<int>, k: nat) {
    && tools.Keys == before.Keys
    && (forall j | 0 <= j < |order| :: order[j] in tools)
    && (forall j, k | 0 <= j < k < |order| :: order[j] != order[k])
    && (forall j | 0 <= j < |order| - 1 :: before[order[j]].stopped)
    && (forall i | i in tools :: tools[i] == before[i].(stopped := tools[i].stopped))
    && (forall j | 0 <= j < k && j < |order| :: tools[order[j]].stopped)
    && (forall j | k <= j < |order| :: tools[order[j]] == before[order[j]])
  }

  lemma StoppingStarts(textOpen: bool, textIndex: nat, tools: map<int, StreamTool>, order: seq<int>, s: State)
    requires Describes(textOpen, textIndex, tools, order, s.open, s.slots)
    ensures Stopping(tools, tools, order, 0)
    ensures forall j | 0 <= j < |order| :: order[j] in tools
    ensures (if textOpen then [BlockStop(textIndex)] else []) + Stops(tools, order, 0) == Closing(s)
  {
  }

  lemma StoppingStep(before: map<int, StreamTool>, tools: map<int, StreamTool>, order: seq<int>, k: nat)
    requires Stopping(before, tools, order, k) && k < |order|
    ensures order[k] in tools && forall j | 0 <= j < |order| :: order[j] in tools
    ensures tools[order[k]].stopped ==>
              Stopping(before, tools, order, k + 1) && Stops(tools, order, k + 1) == Stops(tools, order, k)
    ensures !tools[order[k]].stopped ==>
              var t := tools[order[k]];
              var after := tools[order[k] := t.(stopped := true)];
              && after.Keys == tools.Keys && Stopping(before, after, order, k + 1)
              && Stops(tools, order, k) == [BlockStop(t.blockIndex)] + Stops(after, order, k + 1)
  {
  }

  lemma StoppingEnds(textOpen: bool, textIndex: nat, before: map<int, StreamTool>, tools: map<int, StreamTool>,
                     order: seq<int>, s: State)
    requires Describes(textOpen, textIndex, before, order, s.open, s.slots)
    requires Stopping(before, tools, order, |order|)
    ensures Describes(false, textIndex, tools, order, Nothing, s.slots)
    ensures Stops(tools, order, |order|) == []
  {
  }

  class StreamConverter {
    const decode: Decoder
    var lineBuf: string
    var done: bool
    var started: bool
    var id: string
    var model: string
    var textOpen: bool
    var textIndex: nat
    var nextIndex: nat
    var tools: map<int, StreamTool>
    var toolOrder: seq<int>
    var toolsSeen: bool
    var usage: Option<Usage>
    var finished: bool
    var heldFinish: string
    var terminalSent: bool
    var flushed: bool
    /** What the fields stand for. */
    ghost var spec: State

    ghost predicate Valid()
      reads this`nextIndex, this`started, this`usage, this`finished, this`heldFinish,
            this`terminalSent, this`toolsSeen, this`textOpen, this`textIndex, this`tools, this`toolOrder, this`spec
    {
      && spec.count == nextIndex
      && spec.started == started && spec.usage == usage && spec.finished == finished
      && spec.held == heldFinish && spec.sent == terminalSent
      && (toolsSeen <==> spec.slots != map[])
      && Describes(textOpen, textIndex, tools, toolOrder, spec.open, spec.slots)
    }

    constructor (decode: Decoder)
      ensures Valid() && spec == Initial() && lineBuf == "" && !done && !flushed && this.decode == decode
    {
      this.decode := decode;
      lineBuf, done, started, id, model := "", false, false, "", "";
      textOpen, textIndex, nextIndex, tools, toolOrder, toolsSeen := false, 0, 0, map[], [], false;
      usage, finished, heldFinish, terminalSent, flushed := None, false, "", false, false;
      spec := Initial();
    }

    method StopText() returns (events: seq<ClaudeEvent>)
      modifies this`textOpen
      ensures !textOpen && events == if old(textOpen) then [BlockStop(textIndex)] else []
    {
      if !textOpen { return []; }
      textOpen := false;
      events := [BlockStop(textIndex)];
    }

    /** Closes the text block and every open tool block: exactly the open one. */
    method StopBlocks() returns (events: seq<ClaudeEvent>)
      requires Valid()
      modifies this`textOpen, this`tools, this`spec
      ensures Valid() && events == Closing(old(spec)) && spec == old(spec).(open := Nothing) && !textOpen
    {
      hide Describes, Stopping, Stops;
      ghost var s, before, wasOpen := spec, tools, textOpen;
      StoppingStarts(wasOpen, textIndex, tools, toolOrder, s);
      events := StopText();
      ghost var e0 := events;
      for k := 0 to |toolOrder|
        invariant spec == s && tools.Keys == before.Keys && !textOpen
        invariant Stopping(before, tools, toolOrder, k)
        invariant events + Stops(tools, toolOrder, k) == e0 + Stops(before, toolOrder, 0)
      {
        StoppingStep(before, tools, toolOrder, k);
        var t := tools[toolOrder[k]];
        if !t.stopped {
          tools := tools[toolOrder[k] := t.(stopped := true)];
          events := events + [BlockStop(t.blockIndex)];
        }
      }
      StoppingEnds(wasOpen, textIndex, before, tools, toolOrder, s);
      spec := spec.(open := Nothing);
      assert events + [] == events;
    }

    method Content(content: string) returns (events: seq<ClaudeEvent>)
      requires Valid()
      modifies this`textOpen, this`textIndex, this`nextIndex, this`tools, this`spec
      ensures Valid() && if content == "" then spec == old(spec) && events == []
              else (spec, events) == OnSay(old(spec), content)
    {
      events := [];
      if content == "" { return; }
      hide Describes, Closing;
      ghost var s := spec;
      DescribesSlot(textOpen, textIndex, tools, toolOrder, spec.open, spec.slots, 0);
      if !textOpen {
        events := StopBlocks();
        DescribesNewText(textIndex, nextIndex, tools, toolOrder, spec.slots);
        textIndex := nextIndex;
        nextIndex := nextIndex + 1;
        textOpen := true;
        events := events + [TextStart(textIndex)];
        spec := spec.(count := nextIndex, open := TextAt(textIndex));
      } else {
        assert events + [BlockText(textIndex, content)] == [BlockText(textIndex, content)];
      }
      events := events + [BlockText(textIndex, content)];
      assert (spec, events) == OnSay(s, content);
    }

    /** The first entry of an upstream index opens a block, closing any other. */
    method Announce(tc: ToolCallDelta) returns (events: seq<ClaudeEvent>)
      requires Valid()
      modifies this`textOpen, this`nextIndex, this`tools, this`toolOrder, this`toolsSeen, this`spec
      ensures Valid() && (spec, events) == OpenCall(old(spec), tc)
    {
      hide Describes, Closing;
      DescribesSlot(textOpen, textIndex, tools, toolOrder, spec.open, spec.slots, tc.index);
      if tc.index in tools { return []; }
      events := StopBlocks();
      var t := StreamTool(nextIndex, tc.id, tc.name, false);
      DescribesNewTool(textIndex, tools, toolOrder, spec.slots, tc.index, t);
      nextIndex := nextIndex + 1;
      tools := tools[tc.index := t];
      toolsSeen := true;
      toolOrder := toolOrder + [tc.index];
      events := events + [ToolStart(t.blockIndex, t.id, t.name)];
      spec := spec.(count := nextIndex, open := ToolAt(t.blockIndex), slots := spec.slots[tc.index := t.blockIndex]);
      assert tc.index in spec.slots;
    }

    method ToolCall(tc: ToolCallDelta) returns (events: seq<ClaudeEvent>)
      requires Valid()
      modifies this`textOpen, this`nextIndex, this`tools, this`toolOrder, this`toolsSeen, this`spec
      ensures Valid() && (spec, events) == OnEntry(old(spec), tc)
    {
      hide Describes, OpenCall;
      events := Announce(tc);
      DescribesSlot(textOpen, textIndex, tools, toolOrder, spec.open, spec.slots, tc.index);
      if tc.arguments != "" {
        events := events + [BlockJson(tools[tc.index].blockIndex, tc.arguments)];
      } else {
        assert events + [] == events;
      }
    }

    method Terminal() returns (events: seq<ClaudeEvent>)
      requires Valid()
      modifies this`heldFinish, this`terminalSent, this`spec
      ensures Valid() && (spec, events) == TerminalOf(old(spec))
    {
      hide Describes;
      var finish := heldFinish;
      heldFinish := "";
      if finish == "" { return []; }
      terminalSent := true;
      var reason := TerminalReason(toolsSeen, "tool_use", FinishToClaudeStop(finish));
      var input, output, cacheRead := 0, 0, None;
      if usage.Some? {
        input, output, cacheRead := usage.value.prompt, usage.value.completion, usage.value.cached;
      }
      events := [MessageDelta(reason, ClaudeUsage(ClampSubtract(input, cacheRead, None), output, cacheRead, None))];
      spec := TerminalOf(spec).0;
    }

    method ToolCalls(calls: seq<ToolCallDelta>) returns (events: seq<ClaudeEvent>)
      requires Valid()
      modifies this`textOpen, this`nextIndex, this`tools, this`toolOrder, this`toolsSeen, this`spec
      ensures Valid() && (spec, events) == OnUnits(old(spec), Entries(calls))
    {
      hide Valid, OnEntry;
      ghost var s := spec;
      events := [];
      for i := 0 to |calls|
        invariant Valid() && (spec, events) == OnUnits(s, Entries(calls[..i]))
      {
        assert calls[..i + 1][..i] == calls[..i];
        UnitsAppend(s, Entries(calls[..i]), [Entry(calls[i])]);
        UnitOne(spec, Entry(calls[i]));
        var more := ToolCall(calls[i]);
        events := events + more;
      }
      assert calls[..|calls|] == calls;
    }

    method FinishReason(finish: string) returns (events: seq<ClaudeEvent>)
      requires Valid()
      modifies this`textOpen, this`tools, this`finished, this`heldFinish, this`spec
      ensures Valid() && if finish == "" then spec == old(spec) && events == []
              else (spec, events) == OnFinish(old(spec), finish)
    {
      hide Describes;
      if finish == "" || finished { return []; }
      finished := true;
      heldFinish := finish;
      spec := spec.(finished := true, held := finish);
      events := StopBlocks();
    }

    method Choose(choice: Choice) returns (events: seq<ClaudeEvent>)
      requires Valid()
      modifies this`textOpen, this`textIndex, this`nextIndex, this`tools, this`toolOrder, this`toolsSeen,
               this`finished, this`heldFinish, this`spec
      ensures Valid() && (spec, events) == OnUnits(old(spec), ChoiceUnits(choice))
    {
      hide Valid, OnSay, OnFinish, OnUnits, Entries, OnUnit;
      ghost var s := spec;
      events := Content(choice.content);
      ghost var e1, s1 := events, spec;
      var more := ToolCalls(choice.toolCalls);
      events := events + more;
      ghost var s2 := spec;
      var stops := FinishReason(choice.finish);
      events := events + stops;
      ChoiceParts(s, choice, s1, e1, s2, more, spec, stops);
    }

    method Start(chunk: Chunk) returns (events: seq<ClaudeEvent>)
      requires Valid()
      modifies this`started, this`id, this`model, this`spec
      ensures Valid() && (spec, events) == OnStart(old(spec), chunk)
    {
      hide Describes;
      if started || |chunk.choices| == 0 { return []; }
      started := true;
      var input := 0;
      if chunk.usage.Some? { input := chunk.usage.value.prompt; }
      id, model := chunk.id, chunk.model;
      events := [MessageStart(id, model, input)];
      spec := OnStart(spec, chunk).0;
    }

    method ChunkLine(chunk: Chunk) returns (events: seq<ClaudeEvent>)
      requires Valid()
      modifies this`usage, this`started, this`id, this`model, this`textOpen, this`textIndex, this`nextIndex, this`tools,
               this`toolOrder, this`toolsSeen, this`finished, this`heldFinish, this`terminalSent, this`spec
      ensures Valid() && (spec, events) == OnChunk(old(spec), chunk)
    {
      hide Describes, OnUnits, TerminalOf, OnStart, ChoiceUnits;
      if chunk.usage.Some? { usage := chunk.usage; }
      spec := Counted(spec, chunk.usage);
      // A chunk after the finish reason flushes the message_delta it withheld.
      events := [];
      if heldFinish != "" {
        events := Terminal();
      } else {
        NothingHeld(spec);
      }
      var started := Start(chunk);
      events := events + started;
      if |chunk.choices| == 0 {
        NoUnits(spec);
        assert events + [] == events;
        return;
      }
      var more := Choose(chunk.choices[0]);
      events := events + more;
    }

    method HandleLine(line: string) returns (events: seq<ClaudeEvent>, err: Option<Failure>)
      requires Valid()
      modifies this`done, this`usage, this`started, this`id, this`model, this`textOpen, this`textIndex, this`nextIndex,
               this`tools, this`toolOrder, this`toolsSeen, this`finished, this`heldFinish, this`terminalSent, this`spec
      ensures Valid()
      ensures var step := OnLine(decode, old(spec), line);
              spec == step.state && events == step.events && done == (old(done) || step.done) && err == step.err
    {
      hide Describes, OnChunk, TerminalOf, Classify;
      match Classify(TrimCR(line))
      case Skip => return [], None;
      case Done =>
        done := true;
        events := StopBlocks();
        var terminal := Terminal();
        events := events + terminal + [MessageStop];
        err := None;
      case Data(payload) =>
        match decode(payload)
        case Err(f) => return [], Some(f);
        case Ok(chunk) =>
          events := ChunkLine(chunk);
          err := None;
    }

    /** One network chunk: every line it completes is handled, in order. */
    method Feed(chunk: string) returns (events: seq<ClaudeEvent>, isDone: bool, err: Option<Failure>)
      requires Valid()
      modifies this`lineBuf, this`done, this`usage, this`started, this`id, this`model, this`textOpen, this`textIndex,
               this`nextIndex, this`tools, this`toolOrder, this`toolsSeen, this`finished, this`heldFinish,
               this`terminalSent, this`spec
      ensures Valid()
      ensures Fed(spec, lineBuf, events, isDone, err)
              == Consume(Lines(decode), true, old(spec), old(done), old(lineBuf) + chunk)
      ensures err.None? ==> done == isDone
    {
      hide Valid, OnLine, Consume;
      lineBuf := lineBuf + chunk;
      events, err := [], None;
      ghost var h := Lines(decode);
      ghost var whole := Consume(h, true, spec, done, lineBuf);
      while true
        invariant Valid()
        invariant var later := Consume(h, true, spec, done, lineBuf);
                  whole == later.(events := events + later.events)
        decreases |lineBuf|
      {
        ConsumeLine(h, true, spec, done, lineBuf);
        var i := LineEnd(lineBuf);
        if i.None? {
          assert events + [] == events;
          return events, done, None;
        }
        var line := lineBuf[..i.value];
        ghost var before, e0 := spec, events;
        lineBuf := lineBuf[i.value + 1..];
        var more;
        more, err := HandleLine(line);
        // Lines that fail emit nothing.
        events := events + more;
        assert h(before, line) == OnLine(decode, before, line);
        if err.Some? { return events, false, err; }
        if done { return events, true, None; }
        ghost var later := Consume(h, true, spec, done, lineBuf);
        assert e0 + (more + later.events) == events + later.events;
      }
    }

    /** Ends a stream whose upstream closed without [DONE]; later calls emit nothing. */
    method Flush() returns (events: seq<ClaudeEvent>)
      requires Valid()
      modifies this`flushed, this`heldFinish, this`terminalSent, this`spec
      ensures Valid() && flushed
      ensures old(flushed) ==> events == [] && spec == old(spec)
      ensures !old(flushed) ==> (spec, events) == Flushing(old(spec))
    {
      hide Describes;
      if flushed { return []; }
      flushed := true;
      events := Terminal();
      if |events| == 0 {
        if !terminalSent { return []; }
        assert [] + [MessageStop] == [MessageStop];
        return [MessageStop];
      }
      events := events + [MessageStop];
    }
  }

  // ---- small facts the converter's proof uses ----

  lemma NothingHeld(s: State)
    requires s.held == ""
    ensures TerminalOf(s) == (s, [])
  {
  }

  lemma ChoiceParts(s: State, choice: Choice, s1: State, e1: seq<ClaudeEvent>, s2: State, e2: seq<ClaudeEvent>,
                    s3: State, e3: seq<ClaudeEvent>)
    requires if choice.content == "" then (s1, e1) == (s, []) else (s1, e1) == OnSay(s, choice.content)
    requires (s2, e2) == OnUnits(s1, Entries(choice.toolCalls))
    requires if choice.finish == "" then (s3, e3) == (s2, []) else (s3, e3) == OnFinish(s2, choice.finish)
    ensures OnUnits(s, ChoiceUnits(choice)) == (s3, e1 + e2 + e3)
  {
    hide OnSay, OnFinish, OnEntry, Entries;
    var said := if choice.content != "" then [Say(choice.content)] else [];
    var ending := if choice.finish != "" then [Finish(choice.finish)] else [];
    UnitsAppend(s, said, Entries(choice.toolCalls));
    UnitsAppend(s, said + Entries(choice.toolCalls), ending);
    if choice.content != "" { UnitOne(s, Say(choice.content)); }
    if choice.finish != "" { UnitOne(s2, Finish(choice.finish)); }
  }

  lemma NoUnits(s: State)
    ensures OnUnits(s, []) == (s, [])
  {
  }
}
