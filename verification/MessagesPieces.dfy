/** The pieces of a Messages stream, read off the upstream events alone, and the
    canonical output of the converter on every well-formed stream. */
module MessagesPieces {
  import opened Basics
  import opened ResponseTools
  import opened Wire
  import opened ResponsesTurn
  import opened TurnPieces
  import opened MessagesToResponses
  import opened MessagesMeaning
  import M = MessagesEvents

  /** The index of the latest block, the indexes of the text blocks, the one that the
      latest text was for, the indexes of the tool blocks in order, and whether text
      has begun. */
  datatype Reading = Reading(last: Option<int>, texts: set<int>, spoken: Option<int>, tools: seq<int>, begun: bool)

  const NOTHING := Reading(None, {}, None, [], false)

  /** Blocks start with increasing indexes; text goes to a text block, never back to
      an earlier one; JSON goes to a tool block. */
  predicate Fits(r: Reading, ev: M.Event) {
    match ev
    case BlockStart(index, _, _, _) => r.last.None? || r.last.value < index
    case TextFragment(index, text) => index in r.texts && (text != "" && r.spoken.Some? ==> r.spoken.value <= index)
    case JsonFragment(index, _) => index in r.tools
    case Other => true
    case _ => false
  }

  function ReadEvent(r: Reading, ev: M.Event): (Reading, seq<Piece>) {
    match ev
    case BlockStart(index, kind, id, name) =>
      if kind == "text" then
        (r.(last := Some(index), texts := r.texts + {index}, begun := true), if r.begun then [] else [BeginText])
      else if kind == "tool_use" then
        (r.(last := Some(index), tools := r.tools + [index]), [Start(id, name)])
      else (r.(last := Some(index)), [])
    case TextFragment(index, text) => (if text == "" then r else r.(spoken := Some(index)), [Say(text)])
    case JsonFragment(index, partial) => (r, [Feed(NumberOf(r.tools, index), partial)])
    case _ => (r, [])
  }

  function ReadEvents(events: seq<M.Event>): (Reading, seq<Piece>) {
    if events == [] then (NOTHING, [])
    else
      var (r1, p1) := ReadEvents(events[..|events| - 1]);
      var (r2, p2) := ReadEvent(r1, events[|events| - 1]);
      (r2, p1 + p2)
  }

  function Pieces(events: seq<M.Event>): seq<Piece> {
    ReadEvents(events).1
  }

  /** The block events of a turn, each in order. */
  predicate WellFormed(events: seq<M.Event>) {
    events == []
    || (WellFormed(events[..|events| - 1]) && Fits(ReadEvents(events[..|events| - 1]).0, events[|events| - 1]))
  }

  // ---- the converter's state and the reading ----

  ghost predicate Reads(s: State, order: seq<int>, t: Turn, r: Reading)
    requires InMap(s.blocks, order)
  {
    && (r.last.None? <==> order == []) && (r.last.Some? ==> r.last.value == order[|order| - 1])
    && TextsRead(s.blocks, r)
    && (r.begun <==> t.textPos >= 0) && -1 <= t.textPos <= |r.tools|
    && |t.items| == |r.tools| + (if r.begun then 1 else 0)
    && ToolsRead(s.blocks, t.textPos, r.tools)
  }

  ghost predicate TextsRead(blocks: map<int, BlockState>, r: Reading) {
    && (forall i | i in r.texts :: i in blocks && blocks[i].kind == "text")
    && (forall i | i in blocks && blocks[i].kind == "text" && blocks[i].text != "" ::
          r.spoken.Some? && i <= r.spoken.value)
  }

  ghost predicate ToolsRead(blocks: map<int, BlockState>, m: int, tools: seq<int>) {
    && (forall i, j | 0 <= i < j < |tools| :: tools[i] != tools[j])
    && (forall k | 0 <= k < |tools| ::
          tools[k] in blocks && blocks[tools[k]].kind == "tool_use" && blocks[tools[k]].outIdx == Place(m, k))
  }

  lemma TextLands(s: State, order: seq<int>, t: Turn, r: Reading, index: int, text: string)
    requires Stands(s, order, t) && Reads(s, order, t, r) && Fits(r, M.TextFragment(index, text))
    ensures exists n: nat :: Appends(s.blocks, order, n, text) && order[n] == index
  {
    assert index in s.blocks.Keys;
    var n: nat :| n < |order| && order[n] == index;
    assert Appends(s.blocks, order, n, text) by {
      forall k | n < k < |order| && text != "" && s.blocks[order[k]].kind == "text"
        ensures s.blocks[order[k]].text == ""
      {
        assert order[n] < order[k] && order[k] in s.blocks;
      }
    }
  }

  /** The pieces of an event, played, are the actions it amounts to. */
  lemma EventPieces(names: ToolNames, s: State, order: seq<int>, t: Turn, r: Reading, ev: M.Event)
    requires Stands(s, order, t) && Reads(s, order, t, r) && Fits(r, ev)
    ensures InOrder(s, order, ev)
    ensures Play(names, t, ReadEvent(r, ev).1) == Acts(names, t, EventActions(s, ev))
  {
    hide Act, Placed, Lists;
    match ev
    case BlockStart(index, kind, id, name) =>
      if r.last.Some? {
        forall k | 0 <= k < |order| ensures order[k] < index { assert order[k] <= order[|order| - 1]; }
      }
      if kind == "text" && !r.begun {
        PlayOne(names, t, BeginText);
        ActsOne(names, t, OpenText);
      } else if kind == "tool_use" {
        PlayOne(names, t, Start(id, name));
        ActsOne(names, t, OpenTool(id, name));
      }
    case TextFragment(index, text) =>
      TextLands(s, order, t, r, index, text);
      PlayOne(names, t, Say(text));
      ActsOne(names, t, AddText(text));
    case JsonFragment(index, partial) =>
      var k :| 0 <= k < |r.tools| && r.tools[k] == index;
      NumberIs(r.tools, k);
      PlayOne(names, t, Feed(k, partial));
      ActsOne(names, t, AddArgs(s.blocks[index].outIdx, partial));
    case Other =>
  }

  lemma ReadsStart(s: State, order: seq<int>, t: Turn, r: Reading, s': State, t': Turn, index: int, b: BlockState)
    requires InMap(s.blocks, order) && Reads(s, order, t, r) && s.outCount == |t.items|
    requires forall k | 0 <= k < |order| :: order[k] < index
    requires index !in s.blocks && s'.blocks == s.blocks[index := b] && InMap(s'.blocks, order + [index])
    requires t' == WithBlock(t, b) && b.text == "" && (b.kind == "tool_use" ==> b.outIdx == |t.items|)
    ensures Reads(s', order + [index], t', ReadEvent(r, M.BlockStart(index, b.kind, b.id, b.name)).0)
  {
    var r' := ReadEvent(r, M.BlockStart(index, b.kind, b.id, b.name)).0;
    var order' := order + [index];
    assert order'[|order|] == index;
    assert ToolsRead(s'.blocks, t'.textPos, r'.tools) by {
      forall k | 0 <= k < |r.tools|
        ensures s'.blocks[r.tools[k]] == s.blocks[r.tools[k]] && Place(t'.textPos, k) == Place(t.textPos, k)
      {
        assert r.tools[k] in s.blocks;
      }
    }
  }

  lemma ReadsSame(s: State, order: seq<int>, t: Turn, r: Reading, s': State, t': Turn)
    requires InMap(s.blocks, order) && InMap(s'.blocks, order) && Reads(s, order, t, r)
    requires s'.blocks.Keys == s.blocks.Keys
    requires forall i | i in s.blocks ::
               s'.blocks[i].kind == s.blocks[i].kind && s'.blocks[i].outIdx == s.blocks[i].outIdx
    requires t'.textPos == t.textPos && |t'.items| == |t.items|
    requires forall i | i in s.blocks :: s'.blocks[i].text == s.blocks[i].text
    ensures Reads(s', order, t', r)
  {
  }

  lemma ReadsText(s: State, order: seq<int>, t: Turn, r: Reading, t': Turn, index: int, text: string)
    requires InMap(s.blocks, order) && Reads(s, order, t, r) && Fits(r, M.TextFragment(index, text))
    requires t'.textPos == t.textPos && |t'.items| == |t.items|
    ensures var s' := OnText(s, index, text).0;
            && s'.blocks.Keys == s.blocks.Keys
            && Reads(s', order, t', ReadEvent(r, M.TextFragment(index, text)).0)
  {
    if text == "" { assert s.blocks[index].text + text == s.blocks[index].text; }
  }

  lemma ReadsEmitted(s: State, order: seq<int>, t: Turn, r: Reading, s': State)
    requires InMap(s.blocks, order) && Reads(s, order, t, r) && s'.blocks == s.blocks
    ensures Reads(s', order, t, r)
  {
  }

  lemma BeyondAll(order: seq<int>, keys: set<int>, index: int)
    requires Lists(order, keys) && forall k | 0 <= k < |order| :: order[k] < index
    ensures index !in keys
  {
  }

  /** One event of a well-formed stream keeps the reading in step. */
  lemma {:induction false} EventReads(names: ToolNames, s: State, order: seq<int>, t: Turn, r: Reading, ev: M.Event)
    requires Stands(s, order, t) && Reads(s, order, t, r) && Fits(r, ev)
    ensures var o := OnEvent(names, s, ev);
            var (r', pieces) := ReadEvent(r, ev);
            var (t', events) := Play(names, t, pieces);
            && o.err.None? && !o.done && o.events == events
            && Stands(o.state, After(order, ev), t') && Reads(o.state, After(order, ev), t', r')
            && t'.id == t.id && o.state.model == s.model && UsageOf(o.state) == UsageOf(s)
  {
    hide Play, Stands, Reads, Acts;
    StandsBasics(s, order, t);
    EventPieces(names, s, order, t, r, ev);
    EventStep(names, s, order, t, ev);
    var o := OnEvent(names, s, ev);
    var t' := Acts(names, t, EventActions(s, ev)).0;
    StandsBasics(o.state, After(order, ev), t');
    match ev
    case BlockStart(index, kind, id, name) =>
      var b := BlockState(kind, id, name, if kind == "tool_use" then s.outCount else 0, "", "", 0);
      StandsLists(s, order, t);
      BeyondAll(order, s.blocks.Keys, index);
      StartActs(names, s, t, index, b);
      ReadsStart(s, order, t, r, o.state, t', index, b);
    case TextFragment(index, text) =>
      ActsOne(names, t, AddText(text));
      ReadsText(s, order, t, r, t', index, text);
      ReadsEmitted(OnText(s, index, text).0, order, t', ReadEvent(r, ev).0, o.state);
    case JsonFragment(index, partial) =>
      ActsOne(names, t, AddArgs(s.blocks[index].outIdx, partial));
      ReadsSame(s, order, t, r, o.state, t');
    case Other =>
      NoActs(names, t);
      ReadsSame(s, order, t, r, o.state, t');
  }

  lemma StandsLists(s: State, order: seq<int>, t: Turn)
    requires Stands(s, order, t)
    ensures Lists(order, s.blocks.Keys)
  {
  }

  lemma StartActs(names: ToolNames, s: State, t: Turn, index: int, b: BlockState)
    requires s.msgIdx == t.textPos >= -1
    ensures Acts(names, t, EventActions(s, M.BlockStart(index, b.kind, b.id, b.name))).0 ==
            WithBlock(t, b.(args := "", inputEmitted := 0))
  {
    if b.kind == "text" && s.msgIdx < 0 {
      ActsOne(names, t, OpenText);
    } else if b.kind == "tool_use" {
      ActsOne(names, t, OpenTool(b.id, b.name));
    }
  }

  // ---- a whole stream ----

  /** The run over a list of events, all of which the converter accepts. */
  function Run(names: ToolNames, s: State, events: seq<M.Event>): (State, seq<Event>) {
    if events == [] then (s, [])
    else
      var (s1, e1) := Run(names, s, events[..|events| - 1]);
      var o := OnEvent(names, s1, events[|events| - 1]);
      (o.state, e1 + o.events)
  }

  /** message_start, the block events, message_delta, message_stop. */
  datatype Stream = Stream(id: string, model: string, startUsage: M.Counts, blocks: seq<M.Event>, stopReason: string,
                           usage: M.Counts)

  function EventsOf(st: Stream): seq<M.Event> {
    [M.MessageStart(st.id, st.model, st.startUsage)] + st.blocks +
      [M.MessageDelta(st.stopReason, st.usage), M.MessageStop]
  }

  function StreamEvents(names: ToolNames, st: Stream): seq<Event> {
    Run(names, Initial(), EventsOf(st)).1
  }

  /** Later counts override earlier ones where they are present. */
  function FinalUsage(st: Stream): ResponsesUsage {
    var read := if st.usage.cacheRead.Some? then st.usage.cacheRead else st.startUsage.cacheRead;
    var write := if st.usage.cacheWrite.Some? then st.usage.cacheWrite else st.startUsage.cacheWrite;
    var input := if st.usage.input != 0 then st.usage.input else st.startUsage.input;
    ResponsesUsageFrom(input + ValueOrZero(read) + ValueOrZero(write), st.usage.output, UsageDetails(read, write, None))
  }

  lemma RunSnoc(names: ToolNames, s: State, events: seq<M.Event>, ev: M.Event)
    ensures var (s1, e1) := Run(names, s, events);
            var o := OnEvent(names, s1, ev);
            Run(names, s, events + [ev]) == (o.state, e1 + o.events)
  {
    assert (events + [ev])[..|events|] == events;
  }

  lemma {:induction false} BlocksRun(names: ToolNames, s: State, blocks: seq<M.Event>)
    requires s.blocks == map[] && s.msgIdx == -1 && s.outCount == 0 && WellFormed(blocks)
    ensures var (s', events) := Run(names, s, blocks);
            var (r, pieces) := ReadEvents(blocks);
            var (t, played) := Play(names, NewTurn(s.msgId), pieces);
            && events == played && t.id == s.msgId && s'.model == s.model && UsageOf(s') == UsageOf(s)
            && s'.cacheRead == s.cacheRead && s'.cacheWrite == s.cacheWrite && s'.prompt == s.prompt
            && exists order :: Stands(s', order, t) && Reads(s', order, t, r)
    decreases |blocks|
  {
    if blocks == [] {
      assert Stands(s, [], NewTurn(s.msgId)) && Reads(s, [], NewTurn(s.msgId), NOTHING);
    } else {
      hide OnEvent, Stands, Reads, Play, UsageOf;
      var init, ev := blocks[..|blocks| - 1], blocks[|blocks| - 1];
      BlocksRun(names, s, init);
      var (s1, e1) := Run(names, s, init);
      var (r1, p1) := ReadEvents(init);
      var (t1, _) := Play(names, NewTurn(s.msgId), p1);
      var order :| Stands(s1, order, t1) && InMap(s1.blocks, order) && Reads(s1, order, t1, r1);
      EventReads(names, s1, order, t1, r1, ev);
      PlayAppend(names, NewTurn(s.msgId), p1, ReadEvent(r1, ev).1);
      CountsKept(names, s1, ev, r1);
      StandsBasics(OnEvent(names, s1, ev).state, After(order, ev), Play(names, t1, ReadEvent(r1, ev).1).0);
    }
  }

  lemma CountsKept(names: ToolNames, s: State, ev: M.Event, r: Reading)
    requires Fits(r, ev)
    ensures var s' := OnEvent(names, s, ev).state;
            s'.cacheRead == s.cacheRead && s'.cacheWrite == s.cacheWrite && s'.prompt == s.prompt
  {
  }

  lemma StartRuns(names: ToolNames, st: Stream)
    ensures var start := M.MessageStart(st.id, st.model, st.startUsage);
            var (s, events) := Run(names, Initial(), [start]);
            && events == [Created(st.id)] && s.blocks == map[] && s.msgIdx == -1 && s.outCount == 0
            && s.msgId == st.id && s.model == st.model && s.prompt == st.startUsage.input
            && s.cacheRead == st.startUsage.cacheRead && s.cacheWrite == st.startUsage.cacheWrite
  {
    var start := M.MessageStart(st.id, st.model, st.startUsage);
    RunSnoc(names, Initial(), [], start);
    assert [] + [start] == [start];
    assert [] + [Created(st.id)] == [Created(st.id)];
  }

  /** message_delta and message_stop: the terminal of the turn. */
  lemma EndRuns(names: ToolNames, s: State, order: seq<int>, t: Turn, st: Stream)
    requires Stands(s, order, t) && s.model == st.model && s.prompt == st.startUsage.input
    requires s.cacheRead == st.startUsage.cacheRead && s.cacheWrite == st.startUsage.cacheWrite
    ensures Run(names, s, [M.MessageDelta(st.stopReason, st.usage), M.MessageStop]).1 ==
            Terminal(names, t, st.model, ResponseStatusFromClaudeStop(st.stopReason), FinalUsage(st))
  {
    hide Completions, OutputOf, Output;
    var delta := M.MessageDelta(st.stopReason, st.usage);
    RunSnoc(names, s, [], delta);
    RunSnoc(names, s, [delta], M.MessageStop);
    assert [] + [delta] == [delta] && [delta] + [M.MessageStop] == [delta, M.MessageStop];
    var s' := OnEvent(names, s, delta).state;
    DeltaStands(names, s, order, t, st);
    OutputIsTurns(names, s', order, t);
    hide Stands;
    var e := TerminalOf(names, s');
    assert ([] + []) + e == e;
  }

  /** The converter's output on a well-formed stream is the canonical event
      sequence of the pieces read off it. */
  lemma MessagesIsCanonical(names: ToolNames, st: Stream)
    requires WellFormed(st.blocks)
    ensures StreamEvents(names, st) ==
            Canonical(names, st.id, st.model, Pieces(st.blocks), ResponseStatusFromClaudeStop(st.stopReason),
                      FinalUsage(st))
  {
    hide Play, Stands, Reads, ReadEvents, Terminal, Run, FinalUsage;
    var start := [M.MessageStart(st.id, st.model, st.startUsage)];
    var end := [M.MessageDelta(st.stopReason, st.usage), M.MessageStop];
    var s1 := Run(names, Initial(), start).0;
    StartRuns(names, st);
    BlocksRun(names, s1, st.blocks);
    var (s2, played) := Run(names, s1, st.blocks);
    var (t, _) := Play(names, NewTurn(st.id), Pieces(st.blocks));
    var order :| Stands(s2, order, t);
    EndRuns(names, s2, order, t, st);
    RunAppend(names, Initial(), start, st.blocks);
    RunAppend(names, Initial(), start + st.blocks, end);
  }

  /** A stream that closes after some of its blocks: the flush renders the turn said
      so far as completed, with the counts of message_start. */
  lemma EarlyCloseIsCanonical(names: ToolNames, id: string, model: string, start: M.Counts, blocks: seq<M.Event>)
    requires WellFormed(blocks)
    ensures var (s, events) := Run(names, Initial(), [M.MessageStart(id, model, start)] + blocks);
            && s.emitted
            && events + TerminalOf(names, s) ==
               Canonical(names, id, model, Pieces(blocks), "completed",
                         ResponsesUsageFrom(start.input + ValueOrZero(start.cacheRead) + ValueOrZero(start.cacheWrite),
                                            0, UsageDetails(start.cacheRead, start.cacheWrite, None)))
  {
    hide Play, Stands, Reads, ReadEvents, Run, OutputOf, Output, Completions;
    var st := Stream(id, model, start, blocks, "", M.NO_COUNTS);
    var s1 := Run(names, Initial(), [M.MessageStart(id, model, start)]).0;
    StartRuns(names, st);
    StartEmits(names, id, model, start);
    BlocksRun(names, s1, blocks);
    var (s2, played) := Run(names, s1, blocks);
    var (t, _) := Play(names, NewTurn(id), Pieces(blocks));
    var order :| Stands(s2, order, t);
    OutputIsTurns(names, s2, order, t);
    StandsBasics(s2, order, t);
    RunAppend(names, Initial(), [M.MessageStart(id, model, start)], blocks);
    EmittedStays(names, s1, blocks);
  }

  lemma StartEmits(names: ToolNames, id: string, model: string, start: M.Counts)
    ensures var s := Run(names, Initial(), [M.MessageStart(id, model, start)]).0;
            s.emitted && s.completion == 0 && s.stopReason == ""
  {
    RunSnoc(names, Initial(), [], M.MessageStart(id, model, start));
    assert [] + [M.MessageStart(id, model, start)] == [M.MessageStart(id, model, start)];
  }

  /** Blocks neither take back that something was emitted nor give a stop reason. */
  lemma {:induction false} EmittedStays(names: ToolNames, s: State, blocks: seq<M.Event>)
    requires s.emitted && WellFormed(blocks)
    ensures var s' := Run(names, s, blocks).0; s'.emitted && s'.stopReason == s.stopReason
    decreases |blocks|
  {
    if blocks != [] {
      var init, ev := blocks[..|blocks| - 1], blocks[|blocks| - 1];
      EmittedStays(names, s, init);
      FittingEventEmits(names, Run(names, s, init).0, ReadEvents(init).0, ev);
    }
  }

  lemma FittingEventEmits(names: ToolNames, s: State, r: Reading, ev: M.Event)
    requires s.emitted && Fits(r, ev)
    ensures OnEvent(names, s, ev).state.emitted && OnEvent(names, s, ev).state.stopReason == s.stopReason
  {
    hide ToolDelta, CallAdded;
  }

  lemma DeltaStands(names: ToolNames, s: State, order: seq<int>, t: Turn, st: Stream)
    requires Stands(s, order, t)
    ensures var s' := OnEvent(names, s, M.MessageDelta(st.stopReason, st.usage)).state;
            Stands(s', order, t) && s'.msgId == t.id
  {
  }

  lemma {:induction false} RunAppend(names: ToolNames, s: State, a: seq<M.Event>, b: seq<M.Event>)
    ensures var (s1, e1) := Run(names, s, a);
            var (s2, e2) := Run(names, s1, b);
            Run(names, s, a + b) == (s2, e1 + e2)
    decreases |b|
  {
    hide OnEvent;
    if b == [] {
      assert a + b == a;
      assert Run(names, s, a).1 + [] == Run(names, s, a).1;
    } else {
      assert (a + b)[..|a + b| - 1] == a + b[..|b| - 1];
      RunAppend(names, s, a, b[..|b| - 1]);
      var (s1, e1) := Run(names, s, a);
      var (s2, e2) := Run(names, s1, b[..|b| - 1]);
      var e3 := OnEvent(names, s2, b[|b| - 1]).events;
      assert (e1 + e2) + e3 == e1 + (e2 + e3);
    }
  }

  /** Increasing starts are needed: two calls whose blocks start in the other order
      are announced at the positions at which the output has each other. */
  lemma OutOfOrderStartsMove(names: ToolNames, s: State, a: string, b: string, name: string)
    requires s.blocks == map[] && s.outCount == 0 && a != b
    ensures var (first, e1) := OnBlockStart(names, s, 1, "tool_use", a, name);
            var (second, e2) := OnBlockStart(names, first, 0, "tool_use", b, name);
            var output := OutputOf(names, second);
            && e1 == [CallAdded(names, 0, a, name)] && e2 == [CallAdded(names, 1, b, name)]
            && |output| == 2 && output[0].Call? && output[1].Call?
            && output[0].call.callId == b && output[1].call.callId == a
  {
    hide DefaultArgs, RenderedCall, Assemble, CallAdded;
    var second := OnBlockStart(names, OnBlockStart(names, s, 1, "tool_use", a, name).0, 0, "tool_use", b, name).0;
    var blocks := second.blocks;
    TwoCalls(names, blocks);
    KeepsId(names, b, name, blocks[0].args);
    KeepsId(names, a, name, blocks[1].args);
  }

  /** Text may not go back: with two text blocks, text for the second and then for the
      first is sent in that order and rendered in the other. */
  lemma TextForAnEarlierBlockMoves(names: ToolNames, s: State, a: string, b: string)
    requires s.blocks == map[] && s.outCount == 0 && s.msgIdx == -1
    ensures var first := OnBlockStart(names, s, 0, "text", "", "").0;
            var second := OnBlockStart(names, first, 1, "text", "", "").0;
            var (third, e1) := OnText(second, 1, a);
            var (fourth, e2) := OnText(third, 0, b);
            e1 == [TextDelta(s.msgId, 0, a)] && e2 == [TextDelta(s.msgId, 0, b)]
            && OutputOf(names, fourth) == [Message(s.msgId, [b + a])]
  {
    hide Assemble;
    var first := OnBlockStart(names, s, 0, "text", "", "").0;
    var second := OnBlockStart(names, first, 1, "text", "", "").0;
    var fourth := OnText(OnText(second, 1, a).0, 0, b).0;
    assert "" + a == a && "" + b == b;
    TwoTexts(names, fourth.blocks);
  }

  lemma TwoTexts(names: ToolNames, blocks: map<int, BlockState>)
    requires blocks.Keys == {0, 1} && blocks[0].kind == "text" && blocks[1].kind == "text"
    ensures Sorted(blocks.Keys) == [0, 1]
            && Assemble(names, blocks, [0, 1]) == Assembly([None], 0, blocks[0].text + blocks[1].text)
  {
    ZeroAndOne(blocks.Keys);
    hide Sorted;
    assert [0, 1][..1] == [0] && [0][..0] == [];
    assert Assemble(names, blocks, []) == Assembly([], -1, "");
    assert [] + [Option<OutItem>.None] == [None];
    assert Assemble(names, blocks, [0]) == Assembly([None], 0, "" + blocks[0].text);
    assert "" + blocks[0].text == blocks[0].text;
  }

  lemma ZeroAndOne(keys: set<int>)
    requires keys == {0, 1}
    ensures Sorted(keys) == [0, 1]
  {
    SortedIsSorted(keys);
    assert Lists([0, 1], keys) by {
      assert [0, 1][0] == 0 && [0, 1][1] == 1;
    }
    SameElementsSameOrder(Sorted(keys), [0, 1], keys);
  }

  lemma KeepsId(names: ToolNames, id: string, name: string, args: string)
    ensures RenderedCall(names, id, name, DefaultArgs(args)).callId == id
  {
    hide DefaultArgs;
  }

  lemma TwoCalls(names: ToolNames, blocks: map<int, BlockState>)
    requires blocks.Keys == {0, 1} && blocks[0].kind == "tool_use" && blocks[1].kind == "tool_use"
    ensures Sorted(blocks.Keys) == [0, 1]
    ensures var call := (b: BlockState) => Some(Call(RenderedCall(names, b.id, b.name, DefaultArgs(b.args))));
            Assemble(names, blocks, [0, 1]).items == [call(blocks[0]), call(blocks[1])]
  {
    hide DefaultArgs, RenderedCall;
    ZeroAndOne(blocks.Keys);
    hide Sorted;
    assert [0, 1][..1] == [0] && [0][..0] == [];
    assert Assemble(names, blocks, []).items == [];
  }
}
