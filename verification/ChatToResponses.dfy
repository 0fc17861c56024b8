/** Chat Completions upstream to Responses client, streaming. */
module ChatToResponses {
  import opened Basics
  import opened ResponseTools
  import opened Wire
  import opened LineFeed
  import opened ChatChunks
  import opened ResponsesTurn
  import opened OutputAssembly

  // ---- the specification: upstream indexes become positions of a turn ----

  /** slots gives the position of each upstream tool index seen so far; held is
      the finish reason whose terminal has not been emitted. */
  datatype State = State(turn: Turn, model: string, slots: map<int, nat>, started: bool,
                         usage: Option<Usage>, finished: bool, held: string)

  function Initial(): State {
    State(NewTurn(""), "", map[], false, None, false, "")
  }

  function UsageOf(u: Option<Usage>): ResponsesUsage {
    match u
    case None => ResponsesUsageFrom(0, 0, NO_DETAILS)
    case Some(u) => ResponsesUsageFrom(u.prompt, u.completion, UsageDetails(u.cached, None, u.reasoning))
  }

  function TerminalOf(names: ToolNames, s: State): (State, seq<Event>) {
    if s.held == "" then (s, [])
    else (s.(held := ""), Terminal(names, s.turn, s.model, ResponseStatusFromFinish(s.held), UsageOf(s.usage)))
  }

  function OnContent(names: ToolNames, s: State, content: string): (State, seq<Event>) {
    if content == "" then (s, [])
    else
      var (t1, e1) := Act(names, s.turn, OpenText);
      var (t2, e2) := Act(names, t1, AddText(content));
      (s.(turn := t2), e1 + e2)
  }

  /** The first entry of an upstream index announces a call. */
  function OpenCall(names: ToolNames, s: State, tc: ToolCallDelta): (r: (State, seq<Event>))
    ensures tc.index in r.0.slots
  {
    if tc.index in s.slots then (s, [])
    else
      var (t, events) := Act(names, s.turn, OpenTool(tc.id, tc.name));
      (s.(turn := t, slots := s.slots[tc.index := |s.turn.items|]), events)
  }

  function FeedCall(names: ToolNames, s: State, tc: ToolCallDelta): (State, seq<Event>)
    requires tc.index in s.slots
  {
    if tc.arguments == "" then (s, [])
    else
      var (t, events) := Act(names, s.turn, AddArgs(s.slots[tc.index], tc.arguments));
      (s.(turn := t), events)
  }

  function OnToolCall(names: ToolNames, s: State, tc: ToolCallDelta): (State, seq<Event>) {
    var (s1, e1) := OpenCall(names, s, tc);
    var (s2, e2) := FeedCall(names, s1, tc);
    (s2, e1 + e2)
  }

  function OnToolCalls(names: ToolNames, s: State, calls: seq<ToolCallDelta>): (State, seq<Event>) {
    if calls == [] then (s, [])
    else
      var (s1, e1) := OnToolCalls(names, s, calls[..|calls| - 1]);
      var (s2, e2) := OnToolCall(names, s1, calls[|calls| - 1]);
      (s2, e1 + e2)
  }

  function OnFinish(s: State, finish: string): State {
    if finish != "" && !s.finished then s.(finished := true, held := finish) else s
  }

  function OnStart(s: State, chunk: Chunk): (State, seq<Event>) {
    if s.started || chunk.choices == [] then (s, [])
    else (s.(started := true, turn := s.turn.(id := chunk.id), model := chunk.model), [Created(chunk.id)])
  }

  function OnChoice(names: ToolNames, s: State, choice: Choice): (State, seq<Event>) {
    var (s1, e1) := OnContent(names, s, choice.content);
    var (s2, e2) := OnToolCalls(names, s1, choice.toolCalls);
    (OnFinish(s2, choice.finish), e1 + e2)
  }

  function OnChunk(names: ToolNames, s: State, chunk: Chunk): (State, seq<Event>) {
    var counted := if chunk.usage.Some? then s.(usage := chunk.usage) else s;
    var (s1, e1) := TerminalOf(names, counted);
    var (s2, e2) := OnStart(s1, chunk);
    if chunk.choices == [] then (s2, e1 + e2)
    else
      var (s3, e3) := OnChoice(names, s2, chunk.choices[0]);
      (s3, e1 + e2 + e3)
  }

  function OnLine(decode: Decoder, names: ToolNames, s: State, line: string): Step<State, Event> {
    match Classify(TrimCR(line))
    case Skip => Step(s, [], false, None)
    case Done =>
      var (s', events) := TerminalOf(names, s);
      Step(s', events, true, None)
    case Data(payload) =>
      match decode(payload)
      case Err(f) => Step(s, [], false, Some(f))
      case Ok(chunk) =>
        var (s', events) := OnChunk(names, s, chunk);
        Step(s', events, false, None)
  }

  function Lines(decode: Decoder, names: ToolNames): Handler<State, Event> {
    (s, line) => OnLine(decode, names, s, line)
  }

  // ---- the converter ----

  datatype StreamTool = StreamTool(blockIndex: nat, id: string, name: string, args: string, inputEmitted: nat) {
    function Item(): Item {
      Tool(id, name, args, inputEmitted)
    }
  }

  /** Tool states and arrival order describe the items of a turn whose message sits at m. */
  ghost predicate Describes(tools: map<int, StreamTool>, order: seq<int>, m: int, slots: map<int, nat>,
                            items: seq<Item>) {
    && -1 <= m <= |order|
    && |items| == |order| + (if m < 0 then 0 else 1)
    && (m >= 0 ==> items[m] == Text)
    && tools.Keys == slots.Keys
    && (forall i | i in slots :: i in order && tools[i].blockIndex == slots[i])
    && (forall k | 0 <= k < |order| ::
          order[k] in slots && slots[order[k]] == Place(m, k) && items[Place(m, k)] == tools[order[k]].Item())
  }

  lemma DescribesMessage(tools: map<int, StreamTool>, order: seq<int>, slots: map<int, nat>, items: seq<Item>)
    requires Describes(tools, order, -1, slots, items)
    ensures Describes(tools, order, |items|, slots, items + [Text])
  {
  }

  lemma DescribesNewTool(tools: map<int, StreamTool>, order: seq<int>, m: int, slots: map<int, nat>, items: seq<Item>,
                         index: int, id: string, name: string)
    requires Describes(tools, order, m, slots, items) && index !in slots
    ensures var t := StreamTool(|items|, id, name, "", 0);
            Describes(tools[index := t], order + [index], m, slots[index := |items|], items + [t.Item()])
  {
    var order' := order + [index];
    assert order'[|order|] == index;
    forall k | 0 <= k < |order| ensures order'[k] != index { assert order'[k] == order[k]; }
    forall i | i in slots ensures i in order' {
      var k :| 0 <= k < |order| && order[k] == i;
      assert order'[k] == i;
    }
  }

  lemma DescribesNewArgs(tools: map<int, StreamTool>, order: seq<int>, m: int, slots: map<int, nat>, items: seq<Item>,
                         index: int, args: string, emitted: nat)
    requires Describes(tools, order, m, slots, items) && index in slots
    ensures var t := tools[index].(args := args, inputEmitted := emitted);
            && t.blockIndex < |items| && items[t.blockIndex] == tools[index].Item()
            && Describes(tools[index := t], order, m, slots, items[t.blockIndex := t.Item()])
  {
    var t := tools[index].(args := args, inputEmitted := emitted);
    var n :| 0 <= n < |order| && order[n] == index;
    forall k | 0 <= k < |order|
      ensures items[t.blockIndex := t.Item()][Place(m, k)] == tools[index := t][order[k]].Item()
    {
      if order[k] == index { assert Place(m, k) == Place(m, n); }
    }
  }

  lemma DescribesSlot(tools: map<int, StreamTool>, order: seq<int>, m: int, slots: map<int, nat>, items: seq<Item>,
                      index: int)
    requires Describes(tools, order, m, slots, items)
    ensures index in tools <==> index in slots
    ensures index in slots ==> tools[index].blockIndex == slots[index] < |items|
    ensures index in slots ==> items[slots[index]] == tools[index].Item()
  {
    if index in slots {
      var k :| 0 <= k < |order| && order[k] == index;
      assert items[Place(m, k)] == tools[order[k]].Item();
    }
  }

  lemma DescribesSize(tools: map<int, StreamTool>, order: seq<int>, m: int, slots: map<int, nat>, items: seq<Item>)
    requires Describes(tools, order, m, slots, items)
    ensures -1 <= m <= |order| && |items| == |order| + (if m < 0 then 0 else 1)
    ensures m >= 0 ==> items[m] == Text
  {
  }

  lemma DescribesCall(tools: map<int, StreamTool>, order: seq<int>, m: int, slots: map<int, nat>, items: seq<Item>,
                      k: nat)
    requires Describes(tools, order, m, slots, items) && k < |order|
    ensures order[k] in tools && tools[order[k]].blockIndex == Place(m, k) < |items|
    ensures items[Place(m, k)] == tools[order[k]].Item()
  {
    DescribesSlot(tools, order, m, slots, items, order[k]);
  }

  /** The assembler holds the first k calls of the turn, and the message's slot if reserved. */
  ghost predicate Assembled(names: ToolNames, t: Turn, m: int, k: nat, reserved: bool, out: seq<Option<OutItem>>) {
    && (reserved <==> 0 <= m < |out|)
    && |out| == (if reserved then k + 1 else k)
    && forall j | 0 <= j < k :: Place(m, j) < |t.items| && Place(m, j) < |out| &&
         out[Place(m, j)] == Some(Rendered(names, t, t.items[Place(m, j)]))
  }

  lemma AssembledNothing(names: ToolNames, t: Turn, m: int)
    ensures Assembled(names, t, m, 0, false, [])
  {
  }

  lemma AssembledSlot(names: ToolNames, t: Turn, m: int, k: nat, out: seq<Option<OutItem>>)
    requires Assembled(names, t, m, k, false, out) && m == k
    ensures Assembled(names, t, m, k, true, out + [None]) && |out| == m
  {
  }

  lemma AssembledCall(names: ToolNames, t: Turn, m: int, k: nat, reserved: bool, out: seq<Option<OutItem>>,
                      tool: StreamTool)
    requires Assembled(names, t, m, k, reserved, out)
    requires reserved <==> 0 <= m <= k
    requires Place(m, k) < |t.items| && t.items[Place(m, k)] == tool.Item()
    ensures Assembled(names, t, m, k + 1, reserved,
                      out + [Some(Call(RenderedCall(names, tool.id, tool.name, DefaultArgs(tool.args))))])
  {
    assert |out| == Place(m, k);
  }

  lemma AssembledAll(names: ToolNames, t: Turn, tools: map<int, StreamTool>, order: seq<int>, m: int,
                     slots: map<int, nat>, out: seq<Option<OutItem>>, output: seq<OutItem>)
    requires Describes(tools, order, m, slots, t.items)
    requires Assembled(names, t, m, |order|, m >= 0, out)
    requires |output| == |out| && forall k | 0 <= k < |out| && k != m :: Some(output[k]) == out[k]
    requires m >= 0 ==> output[m] == Message(t.id, [t.text])
    ensures output == Output(names, t)
  {
    forall p | 0 <= p < |t.items| ensures output[p] == Rendered(names, t, t.items[p]) {
      if p != m {
        var j := if m < 0 || p < m then p else p - 1;
        assert p == Place(m, j);
      }
    }
  }

  class StreamConverter {
    const decode: Decoder
    const names: ToolNames
    var lineBuf: string
    var done: bool
    var started: bool
    var id: string
    var model: string
    var nextIndex: nat
    var msgIndex: int
    var tools: map<int, StreamTool>
    var toolOrder: seq<int>
    var usage: Option<Usage>
    var finished: bool
    var heldFinish: string
    var flushed: bool
    var respText: string
    /** What the fields stand for. */
    ghost var spec: State

    ghost predicate Valid()
      reads this`id, this`model, this`msgIndex, this`nextIndex, this`respText, this`started, this`usage, this`finished,
            this`heldFinish, this`tools, this`toolOrder, this`spec
    {
      && spec.turn.id == id && spec.turn.textPos == msgIndex && spec.turn.text == respText
      && -1 <= msgIndex && (msgIndex < 0 ==> respText == "")
      && nextIndex == |spec.turn.items|
      && spec.model == model && spec.started == started && spec.usage == usage
      && spec.finished == finished && spec.held == heldFinish
      && Describes(tools, toolOrder, msgIndex, spec.slots, spec.turn.items)
    }

    constructor (decode: Decoder, names: ToolNames)
      ensures Valid() && spec == Initial() && lineBuf == "" && !done && !flushed
      ensures this.decode == decode && this.names == names
    {
      this.decode, this.names := decode, names;
      lineBuf, done, started, id, model := "", false, false, "", "";
      nextIndex, msgIndex, tools, toolOrder := 0, -1, map[], [];
      usage, finished, heldFinish, flushed, respText := None, false, "", false, "";
      spec := Initial();
    }

    method Content(content: string) returns (events: seq<Event>)
      requires Valid()
      modifies this`msgIndex, this`nextIndex, this`respText, this`spec
      ensures Valid() && (spec, events) == OnContent(names, old(spec), content)
    {
      hide Describes;
      events := [];
      if content == "" { return; }
      if msgIndex < 0 {
        DescribesMessage(tools, toolOrder, spec.slots, spec.turn.items);
        msgIndex := nextIndex;
        nextIndex := nextIndex + 1;
        events := [ItemAdded(msgIndex, Message(id, []))];
      }
      respText := respText + content;
      events := events + [TextDelta(id, msgIndex, content)];
      spec := OnContent(names, spec, content).0;
    }

    method Announce(tc: ToolCallDelta) returns (events: seq<Event>)
      requires Valid()
      modifies this`tools, this`toolOrder, this`nextIndex, this`spec
      ensures Valid() && (spec, events) == OpenCall(names, old(spec), tc)
    {
      hide Describes;
      DescribesSlot(tools, toolOrder, msgIndex, spec.slots, spec.turn.items, tc.index);
      if tc.index in tools { return []; }
      DescribesNewTool(tools, toolOrder, msgIndex, spec.slots, spec.turn.items, tc.index, tc.id, tc.name);
      tools := tools[tc.index := StreamTool(nextIndex, tc.id, tc.name, "", 0)];
      toolOrder := toolOrder + [tc.index];
      events := [CallAdded(names, nextIndex, tc.id, tc.name)];
      nextIndex := nextIndex + 1;
      spec := OpenCall(names, spec, tc).0;
    }

    method Arguments(tc: ToolCallDelta) returns (events: seq<Event>)
      requires Valid() && tc.index in spec.slots
      modifies this`tools, this`spec
      ensures Valid() && (spec, events) == FeedCall(names, old(spec), tc)
    {
      hide Describes, ToolDelta;
      if tc.arguments == "" { return []; }
      DescribesSlot(tools, toolOrder, msgIndex, spec.slots, spec.turn.items, tc.index);
      var t := tools[tc.index];
      var accumulated := t.args + tc.arguments;
      var (delta, emitted) := ToolDelta(names, t.id, t.blockIndex, t.name, tc.arguments, accumulated, t.inputEmitted);
      DescribesNewArgs(tools, toolOrder, msgIndex, spec.slots, spec.turn.items, tc.index, accumulated, emitted);
      tools := tools[tc.index := t.(args := accumulated, inputEmitted := emitted)];
      spec := FeedCall(names, spec, tc).0;
      events := delta;
    }

    method ToolCall(tc: ToolCallDelta) returns (events: seq<Event>)
      requires Valid()
      modifies this`tools, this`toolOrder, this`nextIndex, this`spec
      ensures Valid() && (spec, events) == OnToolCall(names, old(spec), tc)
    {
      hide Describes, FeedCall, OpenCall;
      events := Announce(tc);
      var more := Arguments(tc);
      events := events + more;
    }

    /** Item completions, with the accumulated text for the message item. */
    method Complete(output: seq<OutItem>) returns (events: seq<Event>)
      requires forall k | 0 <= k < |output| && output[k].Message? :: output[k].content == [respText]
      ensures events == Completions(output)
    {
      events := [];
      for k := 0 to |output|
        invariant events == Completions(output[..k])
      {
        assert output[..k + 1][..k] == output[..k];
        match output[k]
        case Message(itemId, _) =>
          ConcatOne(respText);
          events := events +
            [TextDone(itemId, k, respText), ContentPartDone(itemId, k, respText), ItemDone(k, output[k])];
        case Call(_) =>
          events := events + ItemCompletion(k, output[k]);
      }
      assert output[..|output|] == output;
    }

    method Terminate() returns (events: seq<Event>)
      requires Valid()
      modifies this`heldFinish, this`spec
      ensures Valid() && (spec, events) == TerminalOf(names, old(spec))
    {
      hide Describes, Completions, Output;
      var finish := heldFinish;
      heldFinish := "";
      spec := spec.(held := "");
      if finish == "" { return []; }
      var output := Assemble();
      var input, outputTokens, details := 0, 0, NO_DETAILS;
      if usage.Some? {
        input, outputTokens := usage.value.prompt, usage.value.completion;
        details := UsageDetails(usage.value.cached, None, usage.value.reasoning);
      }
      events := Complete(output);
      var status := ResponseStatusFromFinish(finish);
      events := events + [Completed(id, model, status, ResponsesUsageFrom(input, outputTokens, details), output)];
    }

    /** The calls in arrival order, with the message's slot in its place. */
    method Collect() returns (oa: OutputAssembler)
      requires Valid()
      ensures fresh(oa) && oa.Valid() && oa.text == "" && oa.names == names && oa.messageId == id
              && oa.textSlot == msgIndex
      ensures Assembled(names, spec.turn, msgIndex, |toolOrder|, msgIndex >= 0, oa.items)
    {
      hide Describes, Assembled, RenderedCall, DefaultArgs, Rendered;
      ghost var turn, slots := spec.turn, spec.slots;
      oa := new OutputAssembler(id, names);
      var reserved := false;
      AssembledNothing(names, turn, msgIndex);
      DescribesSize(tools, toolOrder, msgIndex, slots, turn.items);
      for k := 0 to |toolOrder|
        invariant oa.Valid() && fresh(oa) && oa.text == "" && oa.names == names && oa.messageId == id
        invariant reserved <==> 0 <= msgIndex < k
        invariant oa.textSlot == if reserved then msgIndex else -1
        invariant Assembled(names, turn, msgIndex, k, reserved, oa.items)
      {
        DescribesCall(tools, toolOrder, msgIndex, slots, turn.items, k);
        var t := tools[toolOrder[k]];
        if msgIndex >= 0 && !reserved && t.blockIndex > msgIndex {
          AssembledSlot(names, turn, msgIndex, k, oa.items);
          oa.ReserveTextSlot();
          reserved := true;
        }
        AssembledCall(names, turn, msgIndex, k, reserved, oa.items, t);
        oa.AppendFunctionCall(t.id, t.name, DefaultArgs(t.args));
      }
      if msgIndex >= 0 && !reserved {
        AssembledSlot(names, turn, msgIndex, |toolOrder|, oa.items);
        oa.ReserveTextSlot();
      }
    }

    /** The final output array. */
    method Assemble() returns (output: seq<OutItem>)
      requires Valid()
      ensures output == Output(names, spec.turn)
    {
      hide Describes, Output, Assembled;
      var oa := Collect();
      oa.AddText(respText);
      assert "" + respText == respText;
      ghost var items := oa.items;
      output := oa.Render();
      AssembledAll(names, spec.turn, tools, toolOrder, msgIndex, spec.slots, items, output);
    }

    method Choose(choice: Choice) returns (events: seq<Event>)
      requires Valid()
      modifies this`msgIndex, this`nextIndex, this`respText, this`spec, this`tools, this`toolOrder, this`finished,
               this`heldFinish
      ensures Valid() && (spec, events) == OnChoice(names, old(spec), choice)
    {
      hide Describes, OnContent, OnToolCall;
      events := Content(choice.content);
      ghost var s1, e1 := spec, events;
      ghost var e2: seq<Event> := [];
      var calls := choice.toolCalls;
      for i := 0 to |calls|
        invariant Valid() && (spec, e2) == OnToolCalls(names, s1, calls[..i]) && events == e1 + e2
      {
        assert calls[..i + 1][..i] == calls[..i];
        var more := ToolCall(calls[i]);
        e2 := e2 + more;
        events := events + more;
      }
      assert calls[..|calls|] == calls;
      if choice.finish != "" && !finished {
        finished := true;
        heldFinish := choice.finish;
      }
      spec := OnFinish(spec, choice.finish);
    }

    method Capture(u: Option<Usage>)
      requires Valid()
      modifies this`usage, this`spec
      ensures Valid() && spec == if u.Some? then old(spec).(usage := u) else old(spec)
    {
      hide Describes;
      if u.Some? {
        usage := u;
        spec := spec.(usage := u);
      }
    }

    method Start(chunk: Chunk) returns (events: seq<Event>)
      requires Valid()
      modifies this`started, this`id, this`model, this`spec
      ensures Valid() && (spec, events) == OnStart(old(spec), chunk)
    {
      hide Describes;
      if started || |chunk.choices| == 0 { return []; }
      started := true;
      id := chunk.id;
      model := chunk.model;
      spec := spec.(started := true, turn := spec.turn.(id := chunk.id), model := chunk.model);
      events := [Created(id)];
    }

    method ChunkLine(chunk: Chunk) returns (events: seq<Event>)
      requires Valid()
      modifies this`usage, this`started, this`id, this`model, this`msgIndex, this`nextIndex, this`respText, this`spec,
               this`tools, this`toolOrder, this`finished, this`heldFinish
      ensures Valid() && (spec, events) == OnChunk(names, old(spec), chunk)
    {
      hide Describes, OnChoice, TerminalOf, OnStart;
      Capture(chunk.usage);
      // A chunk after the finish reason flushes the terminal it withheld.
      var terminal := Terminate();
      var created := Start(chunk);
      events := terminal + created;
      if |chunk.choices| == 0 { return; }
      var more := Choose(chunk.choices[0]);
      events := events + more;
    }

    method HandleLine(line: string) returns (events: seq<Event>, err: Option<Failure>)
      requires Valid()
      modifies this`done, this`usage, this`started, this`id, this`model, this`msgIndex, this`nextIndex, this`respText,
               this`spec, this`tools, this`toolOrder, this`finished, this`heldFinish
      ensures Valid()
      ensures var step := OnLine(decode, names, old(spec), line);
              spec == step.state && events == step.events && done == (old(done) || step.done) && err == step.err
    {
      hide Describes, OnChunk, TerminalOf, Classify;
      match Classify(TrimCR(line))
      case Skip => return [], None;
      case Done =>
        done := true;
        events := Terminate();
        err := None;
      case Data(payload) =>
        match decode(payload)
        case Err(f) => return [], Some(f);
        case Ok(chunk) =>
          events := ChunkLine(chunk);
          err := None;
    }

    /** One network chunk: every line it completes is handled, in order. */
    method Feed(chunk: string) returns (events: seq<Event>, isDone: bool, err: Option<Failure>)
      requires Valid()
      modifies this`lineBuf, this`done, this`usage, this`started, this`id, this`model, this`msgIndex, this`nextIndex,
               this`respText, this`spec, this`tools, this`toolOrder, this`finished, this`heldFinish
      ensures Valid()
      ensures Fed(spec, lineBuf, events, isDone, err)
              == Consume(Lines(decode, names), true, old(spec), old(done), old(lineBuf) + chunk)
      ensures err.None? ==> done == isDone
    {
      hide Valid, OnLine, Consume;
      lineBuf := lineBuf + chunk;
      events, err := [], None;
      ghost var h := Lines(decode, names);
      ghost var whole := Consume(h, true, spec, done, lineBuf);
      while true
        invariant Valid()
        invariant var later := Consume(h, true, spec, done, lineBuf);
                  whole == later.(events := events + later.events)
        decreases |lineBuf|
      {
        ConsumeLine(h, true, spec, done, lineBuf);
        var i := LineEnd(lineBuf);
        if i.None? {
          assert events + [] == events;
          return events, done, None;
        }
        var line := lineBuf[..i.value];
        ghost var before, e0 := spec, events;
        lineBuf := lineBuf[i.value + 1..];
        var more;
        more, err := HandleLine(line);
        events := events + more;
        assert h(before, line) == OnLine(decode, names, before, line);
        if err.Some? { return events, false, err; }
        if done { return events, true, None; }
        ghost var later := Consume(h, true, spec, done, lineBuf);
        assert e0 + (more + later.events) == events + later.events;
      }
    }

    /** Ends a stream whose upstream closed without [DONE]. */
    method Flush() returns (events: seq<Event>)
      requires Valid()
      modifies this`flushed, this`heldFinish, this`spec
      ensures Valid() && flushed
      ensures old(flushed) ==> events == [] && spec == old(spec)
      ensures !old(flushed) ==> (spec, events) == TerminalOf(names, old(spec))
    {
      hide Describes, TerminalOf;
      if flushed { return []; }
      flushed := true;
      events := Terminate();
    }
  }

  // ---- small facts the converter's proof uses ----

  lemma ConcatOne(s: string)
    ensures Concat([s]) == s
  {
    assert [s][..0] == [] && "" + s == s;
  }
}
