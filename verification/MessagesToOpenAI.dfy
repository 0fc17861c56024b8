/** Anthropic Messages upstream to Chat Completions client, streaming. */
module MessagesToOpenAI {
  import opened Basics
  import opened Wire
  import opened LineFeed
  import opened FrameFeed
  import opened ChatClient
  import Framing
  import M = MessagesEvents

  // ---- the specification ----

  /** A block of the upstream; emitted tells that its opening entry was sent. */
  datatype BlockState = BlockState(kind: string, id: string, name: string, ordinal: nat, emitted: bool)

  datatype State = State(blocks: map<int, BlockState>, toolOrdinal: nat, msgId: string, model: string, prompt: int,
                         completion: int, cacheRead: Option<int>, cacheWrite: Option<int>, toolsSeen: bool,
                         roleSent: bool)

  function Initial(): State {
    State(map[], 0, "", "", 0, 0, None, None, false, false)
  }

  function CaptureCache(s: State, u: M.Counts): State {
    s.(cacheRead := if u.cacheRead.Some? then u.cacheRead else s.cacheRead,
       cacheWrite := if u.cacheWrite.Some? then u.cacheWrite else s.cacheWrite)
  }

  function OnMessageStart(s: State, id: string, model: string, u: M.Counts): State {
    CaptureCache(s.(msgId := id, model := model, prompt := u.input), u)
  }

  /** The leading role chunk, once. */
  function Role(s: State): (State, seq<ChatEvent>) {
    if s.roleSent then (s, []) else (s.(roleSent := true), [RoleChunk(s.msgId, s.model)])
  }

  function OnBlockStart(s: State, index: int, kind: string, id: string, name: string): State {
    if kind == "tool_use" then
      s.(blocks := s.blocks[index := BlockState(kind, id, name, s.toolOrdinal, false)],
         toolOrdinal := s.toolOrdinal + 1, toolsSeen := true)
    else s.(blocks := s.blocks[index := BlockState(kind, id, name, 0, false)])
  }

  function OnText(s: State, text: string): (State, seq<ChatEvent>) {
    var (s', role) := Role(s);
    (s', role + [ContentChunk(text)])
  }

  function OnJson(s: State, index: int, partial: string): Result<(State, seq<ChatEvent>), Failure> {
    if index !in s.blocks || s.blocks[index].kind != "tool_use" then Err(M.ORPHAN_FRAGMENT)
    else
      var b := s.blocks[index];
      var (s', role) := Role(s.(blocks := s.blocks[index := b.(emitted := true)]));
      Ok((s', role +
          [if b.emitted then ArgumentsEntry(b.ordinal, partial) else OpeningEntry(b.ordinal, b.id, b.name, partial)]))
  }

  function OnMessageDelta(s: State, stop: string, u: M.Counts): (State, seq<ChatEvent>) {
    var s' := CaptureCache(s.(prompt := if u.input != 0 then u.input else s.prompt, completion := u.output), u);
    (s', [FinishChunk(TerminalReason(s'.toolsSeen, "tool_calls", ClaudeStopToFinish(stop)), UsageOf(s'))])
  }

  function UsageOf(s: State): ChatUsage {
    ChatUsageFrom(s.prompt + ValueOrZero(s.cacheRead) + ValueOrZero(s.cacheWrite), s.completion,
                  UsageDetails(s.cacheRead, None, None))
  }

  function OnEvent(s: State, ev: M.Event): Step<State, ChatEvent> {
    match ev
    case MessageStart(id, model, usage) =>
      var (s', events) := Role(OnMessageStart(s, id, model, usage));
      Step(s', events, false, None)
    case BlockStart(index, kind, id, name) => Step(OnBlockStart(s, index, kind, id, name), [], false, None)
    case TextFragment(_, text) =>
      var (s', events) := OnText(s, text);
      Step(s', events, false, None)
    case JsonFragment(index, partial) =>
      (match OnJson(s, index, partial)
       case Err(f) => Step(s, [], false, Some(f))
       case Ok((s', events)) => Step(s', events, false, None))
    case MessageDelta(stop, usage) =>
      var (s', events) := OnMessageDelta(s, stop, usage);
      Step(s', events, false, None)
    case MessageStop => Step(s, [], true, None)
    case Failed(f) => Step(s, [], false, Some(f))
    case Other => Step(s, [], false, None)
  }

  function OnFrame(decode: M.Decoder, s: State, frame: Framing.Frame): Step<State, ChatEvent> {
    match M.Decode(decode, frame)
    case Err(f) => Step(s, [], false, Some(f))
    case Ok(ev) => OnEvent(s, ev)
  }

  function Frames(decode: M.Decoder): Dispatcher<State, ChatEvent> {
    (s, frame) => OnFrame(decode, s, frame)
  }

  // ---- the converter ----

  class StreamConverter {
    const decode: M.Decoder
    const framer: Framing.SSEFramer
    var blocks: map<int, BlockState>
    var toolOrdinal: nat
    var msgId: string
    var model: string
    var promptTokens: int
    var completionTokens: int
    var cacheRead: Option<int>
    var cacheCreation: Option<int>
    var toolsSeen: bool
    var roleSent: bool

    function Abs(): State
      reads this
    {
      State(blocks, toolOrdinal, msgId, model, promptTokens, completionTokens, cacheRead, cacheCreation, toolsSeen,
            roleSent)
    }

    constructor (decode: M.Decoder)
      ensures Abs() == Initial() && fresh(framer) && framer.buf == "" && framer.Current() == Framing.EMPTY
      ensures this.decode == decode && !framer.wantRaw
    {
      this.decode := decode;
      framer := new Framing.SSEFramer(false);
      blocks, toolOrdinal, msgId, model, promptTokens, completionTokens := map[], 0, "", "", 0, 0;
      cacheRead, cacheCreation, toolsSeen, roleSent := None, None, false, false;
    }

    method Cache(u: M.Counts)
      modifies this`cacheRead, this`cacheCreation
      ensures Abs() == CaptureCache(old(Abs()), u)
    {
      if u.cacheRead.Some? { cacheRead := u.cacheRead; }
      if u.cacheWrite.Some? { cacheCreation := u.cacheWrite; }
    }

    method EmitRole() returns (events: seq<ChatEvent>)
      modifies this`roleSent
      ensures (Abs(), events) == Role(old(Abs()))
    {
      if roleSent { return []; }
      roleSent := true;
      events := [RoleChunk(msgId, model)];
    }

    method Json(index: int, partial: string) returns (events: seq<ChatEvent>, err: Option<Failure>)
      modifies this`blocks, this`roleSent
      ensures match OnJson(old(Abs()), index, partial)
              case Err(f) => Abs() == old(Abs()) && events == [] && err == Some(f)
              case Ok((s, es)) => Abs() == s && events == es && err == None
    {
      if index !in blocks || blocks[index].kind != "tool_use" {
        return [], Some(M.ORPHAN_FRAGMENT);
      }
      var b := blocks[index];
      var entry;
      if !b.emitted {
        entry := OpeningEntry(b.ordinal, b.id, b.name, partial);
      } else {
        entry := ArgumentsEntry(b.ordinal, partial);
      }
      blocks := blocks[index := b.(emitted := true)];
      events := EmitRole();
      events := events + [entry];
      err := None;
    }

    method Dispatch(ev: M.Event) returns (events: seq<ChatEvent>, done: bool, err: Option<Failure>)
      modifies this`blocks, this`toolOrdinal, this`msgId, this`model, this`promptTokens, this`completionTokens,
               this`cacheRead, this`cacheCreation, this`toolsSeen, this`roleSent
      ensures Step(Abs(), events, done, err) == OnEvent(old(Abs()), ev)
    {
      hide OnJson, UsageOf;
      events, done, err := [], false, None;
      match ev
      case MessageStart(id, mdl, usage) =>
        msgId, model, promptTokens := id, mdl, usage.input;
        Cache(usage);
        events := EmitRole();
      case BlockStart(index, kind, id, name) =>
        var b := BlockState(kind, id, name, 0, false);
        if kind == "tool_use" {
          b := b.(ordinal := toolOrdinal);
          toolOrdinal := toolOrdinal + 1;
          toolsSeen := true;
        }
        blocks := blocks[index := b];
      case TextFragment(_, text) =>
        events := EmitRole();
        events := events + [ContentChunk(text)];
      case JsonFragment(index, partial) =>
        events, err := Json(index, partial);
      case MessageDelta(stop, usage) =>
        if usage.input != 0 { promptTokens := usage.input; }
        completionTokens := usage.output;
        Cache(usage);
        events := [FinishChunk(TerminalReason(toolsSeen, "tool_calls", ClaudeStopToFinish(stop)), UsageOf(Abs()))];
      case MessageStop => done := true;
      case Failed(f) => err := Some(f);
      case Other =>
    }

    /** One network chunk: every frame it completes is dispatched, until one
        ends the stream or fails. */
    method Feed(chunk: string) returns (events: seq<ChatEvent>, done: bool, err: Option<Failure>)
      requires !framer.wantRaw
      modifies framer, this`blocks, this`toolOrdinal, this`msgId, this`model, this`promptTokens, this`completionTokens,
               this`cacheRead, this`cacheCreation, this`toolsSeen, this`roleSent
      ensures Fed(Reader(framer.Current(), Abs()), framer.buf, events, done, err)
              == Consume(Lines(false, Frames(decode)), true, old(Reader(framer.Current(), Abs())), false,
                         old(framer.buf) + chunk)
    {
      hide OnFrame, OnEvent, Framing.NextFrame, Consume;
      framer.Push(chunk);
      events := [];
      ghost var d := Frames(decode);
      ghost var whole := Consume(Lines(false, d), true, Reader(framer.Current(), Abs()), false, framer.buf);
      while true
        invariant var later := Consume(Lines(false, d), true, Reader(framer.Current(), Abs()), false, framer.buf);
                  whole == later.(events := events + later.events)
        decreases |framer.buf|
      {
        ghost var r, buf, e0 := Reader(framer.Current(), Abs()), framer.buf, events;
        ConsumeByFrame(false, d, true, r, false, buf);
        var frame := framer.Next();
        if frame.None? {
          assert events + [] == events;
          return events, false, None;
        }
        assert d(r.state, frame.value) == OnFrame(decode, r.state, frame.value);
        var more;
        more, done, err := Handle(frame.value);
        events := events + more;
        if err.Some? { return events, false, err; }
        if done { return events, true, None; }
        ghost var later := Consume(Lines(false, d), true, Reader(framer.Current(), Abs()), false, framer.buf);
        assert e0 + (more + later.events) == events + later.events;
      }
    }

    method Handle(frame: Framing.Frame) returns (events: seq<ChatEvent>, done: bool, err: Option<Failure>)
      modifies this`blocks, this`toolOrdinal, this`msgId, this`model, this`promptTokens, this`completionTokens,
               this`cacheRead, this`cacheCreation, this`toolsSeen, this`roleSent
      ensures Step(Abs(), events, done, err) == OnFrame(decode, old(Abs()), frame)
    {
      hide OnEvent, M.Decode;
      match M.Decode(decode, frame)
      case Err(f) => return [], false, Some(f);
      case Ok(ev) => events, done, err := Dispatch(ev);
    }
  }

  // ---- what the stream says, read off the upstream events alone ----

  function Spoken(events: seq<M.Event>): string {
    if events == [] then ""
    else Spoken(events[..|events| - 1]) + match events[|events| - 1] case TextFragment(_, t) => t case _ => ""
  }

  /** The tool blocks in the order in which they start. */
  function Tools(events: seq<M.Event>): seq<(string, string)> {
    if events == [] then []
    else
      Tools(events[..|events| - 1]) +
      match events[|events| - 1]
      case BlockStart(_, kind, id, name) => (if kind == "tool_use" then [(id, name)] else [])
      case _ => []
  }

  /** The number of the tool block that last started at an index, if it is one. */
  function Owner(events: seq<M.Event>, index: int): Option<nat> {
    if events == [] then None
    else
      var init := events[..|events| - 1];
      match events[|events| - 1]
      case BlockStart(i, kind, _, _) =>
        if i != index then Owner(init, index) else if kind == "tool_use" then Some(|Tools(init)|) else None
      case _ => Owner(init, index)
  }

  /** The fragments of the k-th tool block, joined; None if there are none. */
  function Arguments(events: seq<M.Event>, k: nat): Option<string> {
    if events == [] then None
    else
      var init := events[..|events| - 1];
      var before := Arguments(init, k);
      match events[|events| - 1]
      case JsonFragment(i, partial) =>
        if Owner(init, i) == Some(k) then Some((match before case Some(s) => s case None => "") + partial) else before
      case _ => before
  }

  /** The token counts reported so far; later ones override earlier ones where they
      are present. */
  function CountsOf(events: seq<M.Event>): M.Counts {
    if events == [] then M.NO_COUNTS
    else
      var before := CountsOf(events[..|events| - 1]);
      match events[|events| - 1]
      case MessageStart(_, _, u) => Overridden(before, u.input, before.output, u)
      case MessageDelta(_, u) => Overridden(before, if u.input != 0 then u.input else before.input, u.output, u)
      case _ => before
  }

  function Overridden(before: M.Counts, input: int, output: int, u: M.Counts): M.Counts {
    M.Counts(input, output, if u.cacheRead.Some? then u.cacheRead else before.cacheRead,
             if u.cacheWrite.Some? then u.cacheWrite else before.cacheWrite)
  }

  function UsageFor(c: M.Counts): ChatUsage {
    var prompt := c.input + (if c.cacheRead.Some? then c.cacheRead.value else 0) +
                  (if c.cacheWrite.Some? then c.cacheWrite.value else 0);
    ChatUsage(prompt, c.output, prompt + c.output, c.cacheRead, None)
  }

  function ReasonOf(called: bool, stop: string): string {
    if called || stop == "tool_use" then "tool_calls" else if stop == "max_tokens" then "length"
    else if stop == "refusal" then "content_filter" else "stop"
  }

  /** What the last message_delta ends the reply with: "tool_calls" if any tool block
      had started, fed or not, and the usage reported by then. */
  function FinishOf(events: seq<M.Event>): Option<(string, ChatUsage)> {
    if events == [] then None
    else
      match events[|events| - 1]
      case MessageDelta(stop, _) =>
        Some((ReasonOf(Tools(events) != [], stop), UsageFor(CountsOf(events))))
      case _ => FinishOf(events[..|events| - 1])
  }

  /** Why a stream fails: an upstream error, or arguments for no tool block. */
  predicate Fails(events: seq<M.Event>, ev: M.Event) {
    ev.Failed? || (ev.JsonFragment? && Owner(events, ev.index).None?)
  }

  // ---- the client's reply ----

  /** The calls of the reply: the tool blocks with at least one fragment. */
  ghost predicate Calls(calls: map<int, ChatCall>, events: seq<M.Event>) {
    && (forall k | k in calls :: 0 <= k < |Tools(events)|)
    && (forall k | 0 <= k < |Tools(events)| :: k in calls <==> Arguments(events, k).Some?)
    && (forall k | 0 <= k < |Tools(events)| && k in calls ::
        calls[k] == ChatCall(Tools(events)[k].0, Tools(events)[k].1, Arguments(events, k).value))
  }

  /** Each tool block of the map is the tool of its ordinal, and owns its index. */
  ghost predicate Owns(blocks: map<int, BlockState>, events: seq<M.Event>) {
    && (forall i :: Owner(events, i).Some? <==> i in blocks && blocks[i].kind == "tool_use")
    && (forall i | i in blocks && blocks[i].kind == "tool_use" ::
          var b := blocks[i];
          && Owner(events, i) == Some(b.ordinal) && b.ordinal < |Tools(events)|
          && Tools(events)[b.ordinal] == (b.id, b.name)
          && (b.emitted <==> Arguments(events, b.ordinal).Some?))
    && (forall i, j | i in blocks && j in blocks && i != j ::
          blocks[i].kind == "tool_use" && blocks[j].kind == "tool_use" ==> blocks[i].ordinal != blocks[j].ordinal)
  }

  ghost predicate Follows(s: State, r: Reply, events: seq<M.Event>) {
    && r.role == s.roleSent && r.text == Spoken(events) && s.toolOrdinal == |Tools(events)|
    && (s.toolsSeen <==> Tools(events) != []) && Calls(r.calls, events) && Owns(s.blocks, events)
    && M.Counts(s.prompt, s.completion, s.cacheRead, s.cacheWrite) == CountsOf(events) && r.finish == FinishOf(events)
  }

  lemma {:induction false} Snoc(events: seq<M.Event>, ev: M.Event)
    ensures var all := events + [ev];
            && Spoken(all) == Spoken(events) + (match ev case TextFragment(_, t) => t case _ => "")
            && Tools(all) ==
                 Tools(events) +
                   (match ev case BlockStart(_, kind, id, name) => (if kind == "tool_use" then [(id, name)] else [])
                    case _ => [])
    ensures forall i :: Owner(events + [ev], i) ==
              if ev.BlockStart? && ev.index == i then (if ev.kind == "tool_use" then Some(|Tools(events)|) else None)
              else Owner(events, i)
    ensures forall k: nat :: Arguments(events + [ev], k) ==
              if ev.JsonFragment? && Owner(events, ev.index) == Some(k)
              then Some((match Arguments(events, k) case Some(s) => s case None => "") + ev.partial)
              else Arguments(events, k)
  {
    assert (events + [ev])[..|events|] == events;
  }

  lemma CountsSnoc(events: seq<M.Event>, ev: M.Event)
    ensures CountsOf(events + [ev]) ==
            match ev
            case MessageStart(_, _, u) => Overridden(CountsOf(events), u.input, CountsOf(events).output, u)
            case MessageDelta(_, u) =>
              Overridden(CountsOf(events), if u.input != 0 then u.input else CountsOf(events).input, u.output, u)
            case _ => CountsOf(events)
    ensures FinishOf(events + [ev]) ==
            match ev
            case MessageDelta(stop, _) =>
              Some((ReasonOf(Tools(events + [ev]) != [], stop),
                    UsageFor(CountsOf(events + [ev]))))
            case _ => FinishOf(events)
  {
    assert (events + [ev])[..|events|] == events;
  }

  lemma {:induction false} NoArguments(events: seq<M.Event>, k: nat)
    requires k >= |Tools(events)|
    ensures Arguments(events, k) == None
    decreases |events|
  {
    if events != [] {
      var init := events[..|events| - 1];
      NoArguments(init, k);
      match events[|events| - 1]
      case JsonFragment(i, _) => OwnerIsATool(init, i);
      case _ =>
    }
  }

  lemma {:induction false} OwnerIsATool(events: seq<M.Event>, index: int)
    ensures Owner(events, index).Some? ==> Owner(events, index).value < |Tools(events)|
    decreases |events|
  {
    if events != [] { OwnerIsATool(events[..|events| - 1], index); }
  }

  lemma RoleRead(s: State, r: Reply, more: ChatEvent)
    requires r.role == s.roleSent
    ensures Read(r, Role(s).1) == Some(r.(role := true))
    ensures Read(r, Role(s).1 + [more]) == Accept(r.(role := true), more)
  {
    var role := Role(s).1;
    if !s.roleSent { ReadOne(r, role[0]); }
    ReadAppend(r, role, [more]);
    ReadOne(r.(role := true), more);
  }

  /** What an event other than a fragment leaves alone. */
  lemma KeptByOthers(events: seq<M.Event>, ev: M.Event)
    requires !ev.JsonFragment?
    ensures Tools(events) <= Tools(events + [ev])
    ensures forall k: nat :: Arguments(events + [ev], k) == Arguments(events, k)
    ensures !ev.BlockStart? ==>
              Tools(events + [ev]) == Tools(events) && forall i :: Owner(events + [ev], i) == Owner(events, i)
  {
    assert (events + [ev])[..|events|] == events;
  }

  lemma CallsKept(calls: map<int, ChatCall>, events: seq<M.Event>, ev: M.Event)
    requires Calls(calls, events) && !ev.JsonFragment?
    ensures Calls(calls, events + [ev])
  {
    hide Tools, Owner, Arguments;
    KeptByOthers(events, ev);
    var before, after := Tools(events), Tools(events + [ev]);
    forall k | 0 <= k < |after| ensures k in calls <==> Arguments(events + [ev], k).Some? {
      if k >= |before| { NoArguments(events, k); }
    }
  }

  lemma SilentStep(s: State, r: Reply, events: seq<M.Event>, ev: M.Event)
    requires Calls(r.calls, events) && Owns(s.blocks, events)
    requires !ev.BlockStart? && !ev.JsonFragment?
    ensures Calls(r.calls, events + [ev]) && Owns(s.blocks, events + [ev]) && Tools(events + [ev]) == Tools(events)
  {
    hide Tools, Owner, Arguments, Calls;
    CallsKept(r.calls, events, ev);
    KeptByOthers(events, ev);
  }

  lemma BlockStep(s: State, r: Reply, events: seq<M.Event>, ev: M.Event)
    requires Calls(r.calls, events) && Owns(s.blocks, events) && ev.BlockStart? && s.toolOrdinal == |Tools(events)|
    ensures var s' := OnBlockStart(s, ev.index, ev.kind, ev.id, ev.name);
            && Calls(r.calls, events + [ev]) && Owns(s'.blocks, events + [ev])
            && s'.toolOrdinal == |Tools(events + [ev])|
            && (s'.toolsSeen <==> s.toolsSeen || Tools(events + [ev]) != Tools(events))
  {
    hide Tools, Owner, Arguments, Calls, Owns;
    CallsKept(r.calls, events, ev);
    Snoc(events, ev);
    OwnsAfterStart(s.blocks, events, ev, s.toolOrdinal);
    assert Tools(events) + [] == Tools(events);
    assert |Tools(events) + [(ev.id, ev.name)]| > |Tools(events)|;
  }

  lemma OwnsAfterStart(blocks: map<int, BlockState>, events: seq<M.Event>, ev: M.Event, ordinal: nat)
    requires Owns(blocks, events) && ev.BlockStart? && ordinal == |Tools(events)|
    ensures var b := BlockState(ev.kind, ev.id, ev.name, if ev.kind == "tool_use" then ordinal else 0, false);
            Owns(blocks[ev.index := b], events + [ev])
  {
    hide Tools, Owner, Arguments;
    Snoc(events, ev);
    NoArguments(events, |Tools(events)|);
    assert Tools(events) + [] == Tools(events);
  }

  /** The first fragment of a tool block opens its call, the others add to it. */
  lemma JsonStep(s: State, r: Reply, events: seq<M.Event>, ev: M.Event)
    requires Follows(s, r, events) && ev.JsonFragment? && Owner(events, ev.index).Some?
    ensures OnJson(s, ev.index, ev.partial).Ok?
    ensures var (s', more) := OnJson(s, ev.index, ev.partial).value;
            var r' := Read(r, more);
            r'.Some? && Follows(s', r'.value, events + [ev]) && r'.value.finish == r.finish
  {
    hide Tools, Owner, Arguments, Spoken, Read, CountsOf, FinishOf;
    Snoc(events, ev);
    CountsSnoc(events, ev);
    assert Tools(events) + [] == Tools(events);
    assert Spoken(events) + "" == Spoken(events);
    var b := s.blocks[ev.index];
    var k, partial := b.ordinal, ev.partial;
    var entry := if b.emitted then ArgumentsEntry(k, partial) else OpeningEntry(k, b.id, b.name, partial);
    RoleRead(s.(blocks := s.blocks[ev.index := b.(emitted := true)]), r, entry);
    assert "" + partial == partial;
    OwnsAfterJson(s.blocks, events, ev);
  }

  lemma OwnsAfterJson(blocks: map<int, BlockState>, events: seq<M.Event>, ev: M.Event)
    requires Owns(blocks, events) && ev.JsonFragment? && Owner(events, ev.index).Some?
    ensures Owns(blocks[ev.index := blocks[ev.index].(emitted := true)], events + [ev])
  {
    hide Tools, Owner, Arguments;
    Snoc(events, ev);
    assert Tools(events) + [] == Tools(events);
  }

  /** A step fails exactly when the upstream's event says so; otherwise the client
      accepts what it emits. */
  lemma EventStep(s: State, r: Reply, events: seq<M.Event>, ev: M.Event)
    requires Follows(s, r, events)
    ensures var step := OnEvent(s, ev);
            && (step.err.Some? <==> Fails(events, ev)) && (step.done <==> ev.MessageStop?)
            && (step.err.None? ==>
                var r' := Read(r, step.events); r'.Some? && Follows(step.state, r'.value, events + [ev]))
  {
    hide Tools, Owner, Arguments, Spoken, Read, Calls, Owns, Role, OnJson, UsageOf, OnMessageStart, CountsOf, FinishOf,
         ClaudeStopToFinish, TerminalReason, ReasonOf;
    Snoc(events, ev);
    CountsSnoc(events, ev);
    assert Spoken(events) + "" == Spoken(events);
    if ev.JsonFragment? {
      OwnerIffTool(s.blocks, events, ev.index);
      if Owner(events, ev.index).Some? { JsonStep(s, r, events, ev); } else { OrphanFails(s, ev.index, ev.partial); }
    } else if ev.BlockStart? {
      BlockStep(s, r, events, ev);
      ReadNothing(r);
    } else {
      SilentStep(s, r, events, ev);
      PlainStep(s, r, ev);
    }
  }

  lemma OwnerIffTool(blocks: map<int, BlockState>, events: seq<M.Event>, index: int)
    requires Owns(blocks, events)
    ensures Owner(events, index).Some? <==> index in blocks && blocks[index].kind == "tool_use"
  {
  }

  lemma OrphanFails(s: State, index: int, partial: string)
    requires !(index in s.blocks && s.blocks[index].kind == "tool_use")
    ensures OnJson(s, index, partial).Err?
  {
  }

  lemma ReadNothing(r: Reply)
    ensures Read(r, []) == Some(r)
  {
  }

  /** Events that concern no block. */
  lemma PlainStep(s: State, r: Reply, ev: M.Event)
    requires r.role == s.roleSent && !ev.BlockStart? && !ev.JsonFragment?
    ensures var step := OnEvent(s, ev);
            var r' := Read(r, step.events);
            && (step.err.Some? <==> ev.Failed?) && (step.done <==> ev.MessageStop?)
            && r'.Some? && r'.value.role == step.state.roleSent && r'.value.calls == r.calls
            && r'.value.text == r.text + (match ev case TextFragment(_, t) => t case _ => "")
            && step.state.blocks == s.blocks && step.state.toolOrdinal == s.toolOrdinal
            && step.state.toolsSeen == s.toolsSeen
            && var before, after := M.Counts(s.prompt, s.completion, s.cacheRead, s.cacheWrite),
                                    M.Counts(step.state.prompt, step.state.completion, step.state.cacheRead,
                                             step.state.cacheWrite);
            (match ev
             case MessageStart(_, _, u) =>
               after == Overridden(before, u.input, before.output, u) && r'.value.finish == r.finish
             case MessageDelta(stop, u) =>
               && after == Overridden(before, if u.input != 0 then u.input else before.input, u.output, u)
               && r'.value.finish ==
                    Some((ReasonOf(s.toolsSeen, stop), UsageFor(after)))
             case _ => after == before && r'.value.finish == r.finish)
  {
    hide Read;
    ReadNothing(r);
    assert r.text + "" == r.text;
    match ev
    case MessageStart(id, model, usage) => RoleRead(OnMessageStart(s, id, model, usage), r, ContentChunk(""));
    case TextFragment(_, text) => RoleRead(s, r, ContentChunk(text));
    case MessageDelta(stop, usage) => ReadOne(r, OnMessageDelta(s, stop, usage).1[0]);
    case _ =>
  }

  // ---- whole streams ----

  /** The run up to the first failure. */
  function Run(events: seq<M.Event>): Step<State, ChatEvent> {
    if events == [] then Step(Initial(), [], false, None)
    else
      var before := Run(events[..|events| - 1]);
      if before.err.Some? then before
      else
        var step := OnEvent(before.state, events[|events| - 1]);
        Step(step.state, before.events + step.events, before.done || step.done, step.err)
  }

  /** Some event of the stream made it fail. */
  ghost predicate FailsSomewhere(events: seq<M.Event>) {
    exists k | 0 <= k < |events| :: Fails(events[..k], events[k])
  }

  /** A stream fails exactly when the upstream reports an error or sends arguments
      for no tool block; otherwise the client reads its text, a call for each tool
      block that has a fragment, with all of its fragments, and no other, and what
      the last message_delta ended it with. */
  lemma {:induction false} ReplyIsRead(events: seq<M.Event>)
    ensures var run := Run(events);
            && (run.err.Some? <==> FailsSomewhere(events))
            && (run.err.None? ==> var r := Read(NO_REPLY, run.events); r.Some? && Follows(run.state, r.value, events))
    decreases |events|
  {
    hide OnEvent, Follows, Fails, Read;
    if events == [] {
      ReadNothing(NO_REPLY);
      StartFollows();
    } else {
      var n := |events| - 1;
      var init, ev := events[..n], events[n];
      ReplyIsRead(init);
      FailsSnoc(init, ev);
      assert init + [ev] == events;
      var before := Run(init);
      if before.err.None? {
        EventStep(before.state, Read(NO_REPLY, before.events).value, init, ev);
        ReadAppend(NO_REPLY, before.events, OnEvent(before.state, ev).events);
      }
    }
  }

  lemma StartFollows()
    ensures Follows(Initial(), NO_REPLY, [])
  {
  }

  lemma FailsSnoc(events: seq<M.Event>, ev: M.Event)
    ensures FailsSomewhere(events + [ev]) <==> FailsSomewhere(events) || Fails(events, ev)
  {
    hide Fails;
    var all := events + [ev];
    assert all[..|events|] == events && all[|events|] == ev;
    forall k | 0 <= k < |events| ensures all[..k] == events[..k] && all[k] == events[k] {
    }
    if FailsSomewhere(events) {
      var k :| 0 <= k < |events| && Fails(events[..k], events[k]);
      assert Fails(all[..k], all[k]);
    }
    if Fails(events, ev) { assert Fails(all[..|events|], all[|events|]); }
    if FailsSomewhere(all) {
      var k :| 0 <= k < |all| && Fails(all[..k], all[k]);
      if k < |events| { assert Fails(events[..k], events[k]); }
    }
  }

  /** The two do not have to agree: after a message_delta the reply says
      "tool_calls" as soon as a tool block has started, and without a fragment for
      any of them it has no call. */
  lemma UnfedToolsStillFinish(events: seq<M.Event>, stop: string, usage: M.Counts)
    requires Run(events + [M.MessageDelta(stop, usage)]).err.None? && Tools(events) != []
    requires forall k | 0 <= k < |Tools(events)| :: Arguments(events, k).None?
    ensures var r := Read(NO_REPLY, Run(events + [M.MessageDelta(stop, usage)]).events);
            r.Some? && r.value.calls == map[] && r.value.finish.Some? && r.value.finish.value.0 == "tool_calls"
  {
    hide Run, Tools, Arguments, Owner, CountsOf, Spoken, Read;
    ReplyIsRead(events + [M.MessageDelta(stop, usage)]);
    Snoc(events, M.MessageDelta(stop, usage));
    CountsSnoc(events, M.MessageDelta(stop, usage));
    assert Tools(events) + [] == Tools(events);
    var r := Read(NO_REPLY, Run(events + [M.MessageDelta(stop, usage)]).events).value;
    assert forall k :: k !in r.calls;
  }

  /** A tool block reaches the client if and only if it has a fragment. */
  lemma ToolAppearsIffFed(events: seq<M.Event>, k: nat)
    requires k < |Tools(events)| && Run(events).err.None?
    ensures var r := Read(NO_REPLY, Run(events).events);
            r.Some? && (k in r.value.calls <==> Arguments(events, k).Some?)
  {
    ReplyIsRead(events);
  }

  /** The identity of the message_start that came before anything was sent; without one
      what is sent first has no identity. */
  function Named(events: seq<M.Event>): seq<(string, string)> {
    if events == [] then []
    else
      var before := Named(events[..|events| - 1]);
      if before != [] then before
      else match events[|events| - 1]
        case MessageStart(id, model, _) => [(id, model)]
        case TextFragment(_, _) => [("", "")]
        case JsonFragment(_, _) => [("", "")]
        case _ => []
  }

  lemma StepNames(s: State, ev: M.Event)
    ensures var step := OnEvent(s, ev);
            && step.state.roleSent == (s.roleSent || Roles(step.events) != [])
            && (s.roleSent || !(ev.MessageStart? || ev.TextFragment? || ev.JsonFragment?) ==> Roles(step.events) == [])
            && (!s.roleSent && step.err.None? ==>
                  match ev
                  case MessageStart(id, model, _) => Roles(step.events) == [(id, model)]
                  case TextFragment(_, _) => Roles(step.events) == [(s.msgId, s.model)]
                  case JsonFragment(_, _) => Roles(step.events) == [(s.msgId, s.model)]
                  case _ => step.state.msgId == s.msgId && step.state.model == s.model)
  {
    hide Roles, UsageOf;
    var step := OnEvent(s, ev);
    NoRoles();
    if step.events != [] {
      var first := step.events[0];
      RolesOfOne(first);
      if |step.events| == 1 {
        assert step.events == [first];
      } else {
        var second := step.events[1];
        RolesOfOne(second);
        RolesAppend([first], [second]);
        assert step.events == [first] + [second];
      }
    }
  }

  lemma NoRoles()
    ensures Roles([]) == []
  {
  }

  /** The role comes with the identity of message_start, once. */
  lemma {:induction false} RoleIsNamed(events: seq<M.Event>)
    ensures var run := Run(events);
            run.err.None? ==>
              && Roles(run.events) == Named(events) && (run.state.roleSent <==> Named(events) != [])
              && (!run.state.roleSent ==> run.state.msgId == "" && run.state.model == "")
    decreases |events|
  {
    hide OnEvent;
    if events != [] {
      var n := |events| - 1;
      RoleIsNamed(events[..n]);
      var before := Run(events[..n]);
      if before.err.None? {
        var step := OnEvent(before.state, events[n]);
        StepNames(before.state, events[n]);
        RolesAppend(before.events, step.events);
      }
    }
  }
}
