/** Anthropic Messages upstream to Responses client, streaming. */
module MessagesToResponses {
  import opened Basics
  import opened ResponseTools
  import opened Wire
  import opened LineFeed
  import opened ResponsesTurn
  import opened OutputAssembly
  import M = MessagesEvents
  import opened FrameFeed
  import Framing

  /** One upstream content block, by its index. */
  datatype BlockState = BlockState(kind: string, id: string, name: string, outIdx: nat, text: string, args: string,
                                   inputEmitted: nat)

  datatype State = State(blocks: map<int, BlockState>, msgId: string, model: string, prompt: int, completion: int,
                         cacheRead: Option<int>, cacheWrite: Option<int>, stopReason: string,
                         msgIdx: int, outCount: nat, emitted: bool)

  function Initial(): State {
    State(map[], "", "", 0, 0, None, None, "", -1, 0, false)
  }

  /** The events of one upstream event; done ends the stream. */
  datatype Outcome = Outcome(state: State, events: seq<Event>, done: bool, err: Option<Failure>)

  function CaptureCache(s: State, u: M.Counts): State {
    s.(cacheRead := if u.cacheRead.Some? then u.cacheRead else s.cacheRead,
       cacheWrite := if u.cacheWrite.Some? then u.cacheWrite else s.cacheWrite)
  }

  function OnMessageStart(s: State, id: string, model: string, u: M.Counts): State {
    CaptureCache(s.(msgId := id, model := model, prompt := u.input), u)
  }

  function OnMessageDelta(s: State, stop: string, u: M.Counts): State {
    CaptureCache(s.(prompt := if u.input != 0 then u.input else s.prompt, completion := u.output),
                 u).(stopReason := stop)
  }

  function OnBlockStart(names: ToolNames, s: State, index: int, kind: string, id: string, name: string)
    : (State, seq<Event>)
  {
    var b := BlockState(kind, id, name, 0, "", "", 0);
    if kind == "text" && s.msgIdx < 0 then
      (s.(blocks := s.blocks[index := b], msgIdx := s.outCount, outCount := s.outCount + 1),
       [ItemAdded(s.outCount, Message(s.msgId, []))])
    else if kind == "tool_use" then
      (s.(blocks := s.blocks[index := b.(outIdx := s.outCount)], outCount := s.outCount + 1),
       [CallAdded(names, s.outCount, id, name)])
    else (s.(blocks := s.blocks[index := b]), [])
  }

  function OnText(s: State, index: int, text: string): (State, seq<Event>) {
    var s' := if index in s.blocks then
                var b := s.blocks[index];
                s.(blocks := s.blocks[index := b.(text := b.text + text)])
              else s;
    (s', [TextDelta(s.msgId, if s.msgIdx >= 0 then s.msgIdx else index, text)])
  }

  function OnJson(names: ToolNames, s: State, index: int, partial: string): Result<(State, seq<Event>), Failure> {
    if index !in s.blocks || s.blocks[index].kind != "tool_use" then Err(M.ORPHAN_FRAGMENT)
    else
      var b := s.blocks[index];
      var args := b.args + partial;
      var (events, emitted) := ToolDelta(names, b.id, b.outIdx, b.name, partial, args, b.inputEmitted);
      Ok((s.(blocks := s.blocks[index := b.(args := args, inputEmitted := emitted)]), events))
  }

  // ---- the terminal ----

  ghost predicate IsMin(keys: set<int>, m: int) {
    m in keys && forall k | k in keys :: m <= k
  }

  lemma Inhabited(keys: set<int>)
    ensures keys == {} || exists x :: x in keys
  {
    if forall x :: x !in keys { assert keys == {}; }
  }

  lemma {:induction false} MinExists(keys: set<int>)
    requires keys != {}
    ensures exists m :: IsMin(keys, m)
    decreases |keys|
  {
    Inhabited(keys);
    var x :| x in keys;
    var rest := keys - {x};
    if rest == {} {
      assert IsMin(keys, x) by {
        forall k | k in keys ensures k == x { assert k !in rest; }
      }
    } else {
      MinExists(rest);
      var m :| IsMin(rest, m);
      assert IsMin(keys, if m <= x then m else x) by {
        forall k | k in keys ensures k == x || m <= k {
          if k != x { assert k in rest; }
        }
      }
    }
  }

  /** sort.Ints of the block indexes */
  function Sorted(keys: set<int>): seq<int>
    decreases |keys|
  {
    if keys == {} then []
    else
      MinExists(keys);
      var m :| m in keys && forall k | k in keys :: m <= k;
      [m] + Sorted(keys - {m})
  }

  ghost predicate Increasing(order: seq<int>) {
    forall i, j | 0 <= i < j < |order| :: order[i] < order[j]
  }

  /** The elements of the sequence are those of the set. */
  ghost predicate Lists(order: seq<int>, keys: set<int>) {
    && (forall k | 0 <= k < |order| :: order[k] in keys)
    && (forall i | i in keys :: exists k :: 0 <= k < |order| && order[k] == i)
  }

  lemma MinFirst(keys: set<int>, m: int, rest: seq<int>)
    requires IsMin(keys, m) && Increasing(rest) && Lists(rest, keys - {m})
    ensures Increasing([m] + rest) && Lists([m] + rest, keys)
  {
    var order := [m] + rest;
    assert Lists(order, keys) by {
      forall i | i in keys ensures exists k :: 0 <= k < |order| && order[k] == i {
        if i == m {
          assert order[0] == i;
        } else {
          assert i in keys - {m};
          var k :| 0 <= k < |rest| && rest[k] == i;
          assert order[k + 1] == i;
        }
      }
    }
    hide Lists;
    forall i, j | 0 <= i < j < |order| ensures order[i] < order[j] {
      assert order[j] == rest[j - 1];
      if i == 0 {
        ListsIn(rest, keys - {m}, j - 1);
      } else {
        assert order[i] == rest[i - 1];
      }
    }
  }

  lemma ListsIn(order: seq<int>, keys: set<int>, k: nat)
    requires Lists(order, keys) && k < |order|
    ensures order[k] in keys
  {
  }

  lemma {:induction false} SortedIsSorted(keys: set<int>)
    ensures Increasing(Sorted(keys)) && Lists(Sorted(keys), keys)
    decreases |keys|
  {
    if keys != {} {
      MinExists(keys);
      var m := Sorted(keys)[0];
      assert Sorted(keys) == [m] + Sorted(keys - {m}) && IsMin(keys, m);
      hide Sorted;
      SortedIsSorted(keys - {m});
      MinFirst(keys, m, Sorted(keys - {m}));
    }
  }

  /** What the assembler holds: rendered items, the message's slot, all text. */
  datatype Assembly = Assembly(items: seq<Option<OutItem>>, slot: int, text: string)

  function Assemble(names: ToolNames, blocks: map<int, BlockState>, order: seq<int>): Assembly
    requires forall k | 0 <= k < |order| :: order[k] in blocks
  {
    if order == [] then Assembly([], -1, "")
    else
      var a := Assemble(names, blocks, order[..|order| - 1]);
      var b := blocks[order[|order| - 1]];
      if b.kind == "text" then
        Assembly(if a.slot >= 0 then a.items else a.items + [None], if a.slot >= 0 then a.slot else |a.items|,
                 a.text + b.text)
      else if b.kind == "tool_use" then
        a.(items := a.items + [Some(Call(RenderedCall(names, b.id, b.name, DefaultArgs(b.args))))])
      else a
  }

  function Filled(a: Assembly, id: string): (r: seq<OutItem>)
    ensures |r| == |a.items|
  {
    seq(|a.items|, k requires 0 <= k < |a.items| =>
      match a.items[k]
      case Some(item) => item
      case None => Message(id, [a.text]))
  }

  function OutputOf(names: ToolNames, s: State): seq<OutItem> {
    SortedIsSorted(s.blocks.Keys);
    Filled(Assemble(names, s.blocks, Sorted(s.blocks.Keys)), s.msgId)
  }

  function UsageOf(s: State): ResponsesUsage {
    ResponsesUsageFrom(s.prompt + ValueOrZero(s.cacheRead) + ValueOrZero(s.cacheWrite), s.completion,
                       UsageDetails(s.cacheRead, s.cacheWrite, None))
  }

  function TerminalOf(names: ToolNames, s: State): seq<Event> {
    var output := OutputOf(names, s);
    Completions(output) + [Completed(s.msgId, s.model, ResponseStatusFromClaudeStop(s.stopReason), UsageOf(s), output)]
  }

  function Dispatch(names: ToolNames, s: State, ev: M.Event): Outcome {
    match ev
    case MessageStart(id, model, usage) =>
      Outcome(OnMessageStart(s, id, model, usage), [Created(id)], false, None)
    case BlockStart(index, kind, id, name) =>
      var (s', events) := OnBlockStart(names, s, index, kind, id, name);
      Outcome(s', events, false, None)
    case TextFragment(index, text) =>
      var (s', events) := OnText(s, index, text);
      Outcome(s', events, false, None)
    case JsonFragment(index, partial) =>
      (match OnJson(names, s, index, partial)
       case Err(f) => Outcome(s, [], false, Some(f))
       case Ok((s', events)) => Outcome(s', events, false, None))
    case MessageDelta(stop, usage) => Outcome(OnMessageDelta(s, stop, usage), [], false, None)
    case MessageStop => Outcome(s, TerminalOf(names, s), true, None)
    case Failed(f) => Outcome(s, [], false, Some(f))
    case Other => Outcome(s, [], false, None)
  }

  /** One event, recording whether anything was ever emitted. */
  function OnEvent(names: ToolNames, s: State, ev: M.Event): Outcome {
    var o := Dispatch(names, s, ev);
    o.(state := o.state.(emitted := s.emitted || o.events != []))
  }

  function OnFrame(decode: M.Decoder, names: ToolNames, s: State, frame: Framing.Frame): Step<State, Event> {
    match M.Decode(decode, frame)
    case Err(f) => Step(s, [], false, Some(f))
    case Ok(ev) =>
      var o := OnEvent(names, s, ev);
      Step(o.state, o.events, o.done, o.err)
  }

  function Frames(decode: M.Decoder, names: ToolNames): Dispatcher<State, Event> {
    (s, frame) => OnFrame(decode, names, s, frame)
  }

  // ---- the converter ----

  class StreamConverter {
    const decode: M.Decoder
    const names: ToolNames
    const framer: Framing.SSEFramer
    var blocks: map<int, BlockState>
    var msgId: string
    var model: string
    var promptTokens: int
    var completionTokens: int
    var cacheRead: Option<int>
    var cacheCreation: Option<int>
    var stopReason: string
    var msgIdx: int
    var outCount: nat
    var emitted: bool
    var flushed: bool

    function Abs(): State
      reads this
    {
      State(blocks, msgId, model, promptTokens, completionTokens, cacheRead, cacheCreation, stopReason, msgIdx,
            outCount, emitted)
    }

    constructor (decode: M.Decoder, names: ToolNames)
      ensures Abs() == Initial() && !flushed && fresh(framer) && framer.buf == "" && framer.Current() == Framing.EMPTY
      ensures this.decode == decode && this.names == names && !framer.wantRaw
    {
      this.decode, this.names := decode, names;
      framer := new Framing.SSEFramer(false);
      blocks, msgId, model, promptTokens, completionTokens := map[], "", "", 0, 0;
      cacheRead, cacheCreation, stopReason := None, None, "";
      msgIdx, outCount, emitted, flushed := -1, 0, false, false;
    }

    method Cache(u: M.Counts)
      modifies this`cacheRead, this`cacheCreation
      ensures Abs() == CaptureCache(old(Abs()), u)
    {
      if u.cacheRead.Some? {
        cacheRead := u.cacheRead;
      }
      if u.cacheWrite.Some? {
        cacheCreation := u.cacheWrite;
      }
    }

    method StartBlock(index: int, kind: string, id: string, name: string) returns (events: seq<Event>)
      modifies this`blocks, this`msgIdx, this`outCount
      ensures (Abs(), events) == OnBlockStart(names, old(Abs()), index, kind, id, name)
    {
      events := [];
      var b := BlockState(kind, id, name, 0, "", "", 0);
      if kind == "text" {
        if msgIdx < 0 {
          msgIdx := outCount;
          outCount := outCount + 1;
          events := [ItemAdded(msgIdx, Message(msgId, []))];
        }
      } else if kind == "tool_use" {
        b := b.(outIdx := outCount);
        outCount := outCount + 1;
        events := [CallAdded(names, b.outIdx, id, name)];
      }
      blocks := blocks[index := b];
    }

    method Text(index: int, text: string) returns (events: seq<Event>)
      modifies this`blocks
      ensures (Abs(), events) == OnText(old(Abs()), index, text)
    {
      if index in blocks {
        blocks := blocks[index := blocks[index].(text := blocks[index].text + text)];
      }
      var at := index;
      if msgIdx >= 0 {
        at := msgIdx;
      }
      events := [TextDelta(msgId, at, text)];
    }

    method Json(index: int, partial: string) returns (events: seq<Event>, err: Option<Failure>)
      modifies this`blocks
      ensures match OnJson(names, old(Abs()), index, partial)
              case Err(f) => Abs() == old(Abs()) && events == [] && err == Some(f)
              case Ok((s, es)) => Abs() == s && events == es && err == None
    {
      if index !in blocks || blocks[index].kind != "tool_use" {
        return [], Some(M.ORPHAN_FRAGMENT);
      }
      var b := blocks[index];
      var args := b.args + partial;
      var (delta, sent) := ToolDelta(names, b.id, b.outIdx, b.name, partial, args, b.inputEmitted);
      blocks := blocks[index := b.(args := args, inputEmitted := sent)];
      return delta, None;
    }

    /** The output array: blocks in upstream index order through the assembler. */
    method OutputItems() returns (output: seq<OutItem>)
      ensures output == OutputOf(names, Abs())
    {
      SortedIsSorted(blocks.Keys);
      var order := Sorted(blocks.Keys);
      var oa := Collect(order);
      ghost var a := Assembly(oa.items, oa.textSlot, oa.text);
      output := oa.Render();
      FilledIs(a, msgId, output);
    }

    method Collect(order: seq<int>) returns (oa: OutputAssembler)
      requires forall k | 0 <= k < |order| :: order[k] in blocks
      ensures fresh(oa) && oa.Valid() && oa.messageId == msgId && (oa.textSlot < 0 ==> oa.text == "")
      ensures Assembly(oa.items, oa.textSlot, oa.text) == Assemble(names, blocks, order)
    {
      hide RenderedCall, DefaultArgs;
      oa := new OutputAssembler(msgId, names);
      for k := 0 to |order|
        invariant oa.Valid() && fresh(oa) && oa.names == names && oa.messageId == msgId
        invariant Assembly(oa.items, oa.textSlot, oa.text) == Assemble(names, blocks, order[..k])
        invariant oa.textSlot < 0 ==> oa.text == ""
      {
        assert order[..k + 1][..k] == order[..k];
        var b := blocks[order[k]];
        if b.kind == "text" {
          oa.ReserveTextSlot();
          oa.AddText(b.text);
        } else if b.kind == "tool_use" {
          oa.AppendFunctionCall(b.id, b.name, DefaultArgs(b.args));
        }
      }
      assert order[..|order|] == order;
    }

    method ResponsesCompleted() returns (events: seq<Event>)
      ensures events == TerminalOf(names, Abs())
    {
      hide OutputOf;
      var output := OutputItems();
      events := [];
      for k := 0 to |output|
        invariant events == Completions(output[..k])
      {
        assert output[..k + 1][..k] == output[..k];
        events := events + ItemCompletion(k, output[k]);
      }
      assert output[..|output|] == output;
      var status := ResponseStatusFromClaudeStop(stopReason);
      var usage := ResponsesUsageFrom(promptTokens + ValueOrZero(cacheRead) + ValueOrZero(cacheCreation),
                                      completionTokens, UsageDetails(cacheRead, cacheCreation, None));
      events := events + [Completed(msgId, model, status, usage, output)];
    }

    method DispatchResponses(ev: M.Event) returns (events: seq<Event>, done: bool, err: Option<Failure>)
      modifies this`blocks, this`msgId, this`model, this`promptTokens, this`completionTokens, this`cacheRead,
               this`cacheCreation, this`stopReason, this`msgIdx, this`outCount
      ensures Outcome(Abs(), events, done, err) == Dispatch(names, old(Abs()), ev)
    {
      events, done, err := [], false, None;
      match ev
      case MessageStart(id, mdl, usage) =>
        msgId, model, promptTokens := id, mdl, usage.input;
        Cache(usage);
        events := [Created(msgId)];
      case BlockStart(index, kind, id, name) =>
        events := StartBlock(index, kind, id, name);
      case TextFragment(index, text) =>
        events := Text(index, text);
      case JsonFragment(index, partial) =>
        events, err := Json(index, partial);
      case MessageDelta(stop, usage) =>
        if usage.input != 0 {
          promptTokens := usage.input;
        }
        completionTokens := usage.output;
        Cache(usage);
        stopReason := stop;
      case MessageStop =>
        events := ResponsesCompleted();
        done := true;
      case Failed(f) =>
        err := Some(f);
      case Other =>
    }

    /** One network chunk: every frame it completes is dispatched, until one
        ends the stream or fails. */
    method Feed(chunk: string) returns (events: seq<Event>, done: bool, err: Option<Failure>)
      requires !framer.wantRaw
      modifies framer, this`blocks, this`msgId, this`model, this`promptTokens, this`completionTokens, this`cacheRead,
               this`cacheCreation, this`stopReason, this`msgIdx, this`outCount, this`emitted
      ensures Fed(Reader(framer.Current(), Abs()), framer.buf, events, done, err)
              == Consume(Lines(false, Frames(decode, names)), true, old(Reader(framer.Current(), Abs())), false,
                         old(framer.buf) + chunk)
    {
      hide OnFrame, OnEvent, Framing.NextFrame, Consume, Dispatch;
      framer.Push(chunk);
      events := [];
      ghost var d := Frames(decode, names);
      ghost var whole := Consume(Lines(false, d), true, Reader(framer.Current(), Abs()), false, framer.buf);
      while true
        invariant var later := Consume(Lines(false, d), true, Reader(framer.Current(), Abs()), false, framer.buf);
                  whole == later.(events := events + later.events)
        decreases |framer.buf|
      {
        ghost var r, buf, e0 := Reader(framer.Current(), Abs()), framer.buf, events;
        ConsumeByFrame(false, d, true, r, false, buf);
        var frame := framer.Next();
        if frame.None? {
          assert events + [] == events;
          return events, false, None;
        }
        assert d(r.state, frame.value) == OnFrame(decode, names, r.state, frame.value);
        var more;
        more, done, err := Handle(frame.value);
        events := events + more;
        if err.Some? { return events, false, err; }
        if done { return events, true, None; }
        ghost var later := Consume(Lines(false, d), true, Reader(framer.Current(), Abs()), false, framer.buf);
        assert e0 + (more + later.events) == events + later.events;
      }
    }

    method Handle(frame: Framing.Frame) returns (events: seq<Event>, done: bool, err: Option<Failure>)
      modifies this`blocks, this`msgId, this`model, this`promptTokens, this`completionTokens, this`cacheRead,
               this`cacheCreation, this`stopReason, this`msgIdx, this`outCount, this`emitted
      ensures Step(Abs(), events, done, err) == OnFrame(decode, names, old(Abs()), frame)
    {
      hide Dispatch, M.Decode;
      match M.Decode(decode, frame)
      case Err(f) => return [], false, Some(f);
      case Ok(ev) =>
        events, done, err := DispatchResponses(ev);
        if |events| > 0 {
          emitted := true;
        }
    }

    /** Ends a stream whose upstream closed before message_stop. */
    method Flush() returns (events: seq<Event>)
      modifies this`flushed
      ensures flushed
      ensures events == if old(flushed) || !emitted then [] else TerminalOf(names, Abs())
    {
      hide TerminalOf;
      if flushed { return []; }
      flushed := true;
      if !emitted { return []; }
      events := ResponsesCompleted();
    }
  }

  lemma FilledIs(a: Assembly, id: string, output: seq<OutItem>)
    requires forall k | 0 <= k < |a.items| :: a.items[k].None? <==> k == a.slot
    requires a.slot < |a.items| && (a.slot < 0 ==> a.text == "")
    requires a.slot >= 0 ==>
               |output| == |a.items| && output[a.slot] == Message(id, [a.text])
               && forall k | 0 <= k < |a.items| && k != a.slot :: Some(output[k]) == a.items[k]
    requires a.slot < 0 ==> |output| == |a.items| && forall k | 0 <= k < |a.items| :: Some(output[k]) == a.items[k]
    ensures output == Filled(a, id)
  {
    forall k | 0 <= k < |a.items| ensures output[k] == Filled(a, id)[k] {
      assert a.items[k].None? <==> k == a.slot;
    }
  }
}
