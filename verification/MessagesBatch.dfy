/** A complete Messages response converted to a Responses result at once, and the
    agreement of that with converting a stream of it. */
module MessagesBatch {
  import opened Basics
  import opened ResponseTools
  import opened Wire
  import opened LineFeed
  import opened ResponsesTurn
  import opened OutputAssembly
  import opened MessagesToResponses
  import Meaning = MessagesMeaning
  import Pieces = MessagesPieces
  import M = MessagesEvents

  /** A content block; input is the raw JSON of a tool_use block. */
  datatype BatchBlock = BatchBlock(kind: string, text: string, id: string, name: string, input: string)

  datatype BatchResponse = BatchResponse(id: string, model: string, content: seq<BatchBlock>, stopReason: string,
                                         usage: M.Counts)

  datatype ResponsesResult = ResponsesResult(id: string, model: string, status: string, output: seq<OutItem>,
                                             usage: ResponsesUsage)

  predicate Known(kind: string) {
    kind in {"text", "tool_use", "thinking", "redacted_thinking"}
  }

  function Unrepresentable(kind: string): Failure {
    Failure("output cannot represent " + kind + " content blocks")
  }

  // ---- the specification ----

  /** What the assembler holds after some blocks; canon re-encodes an input. */
  function Assembled(names: ToolNames, canon: string -> string, content: seq<BatchBlock>): Assembly {
    if content == [] then Assembly([], -1, "")
    else
      var a, b := Assembled(names, canon, content[..|content| - 1]), content[|content| - 1];
      if b.kind == "text" then
        Assembly(if a.slot >= 0 then a.items else a.items + [None], if a.slot >= 0 then a.slot else |a.items|,
                 a.text + b.text)
      else if b.kind == "tool_use"
      then a.(items := a.items + [Some(Call(RenderedCall(names, b.id, b.name, canon(b.input))))])
      else a
  }

  function FirstUnknown(content: seq<BatchBlock>): Option<string> {
    if content == [] then None
    else
      var before := FirstUnknown(content[..|content| - 1]);
      if before.Some? then before
      else if Known(content[|content| - 1].kind) then None
      else Some(content[|content| - 1].kind)
  }

  function BatchUsage(u: M.Counts): ResponsesUsage {
    ResponsesUsageFrom(u.input + ValueOrZero(u.cacheRead) + ValueOrZero(u.cacheWrite), u.output,
                       UsageDetails(u.cacheRead, u.cacheWrite, None))
  }

  function BatchResult(names: ToolNames, canon: string -> string,
                       resp: BatchResponse): Result<ResponsesResult, Failure> {
    match FirstUnknown(resp.content)
    case Some(kind) => Err(Unrepresentable(kind))
    case None =>
      Ok(ResponsesResult(resp.id, resp.model, ResponseStatusFromClaudeStop(resp.stopReason),
                         Filled(Assembled(names, canon, resp.content), resp.id), BatchUsage(resp.usage)))
  }

  // ---- the conversion ----

  /** The block loop, up to the first block that has no representation. */
  method Collect(names: ToolNames, canon: string -> string, resp: BatchResponse)
    returns (oa: OutputAssembler, unknown: Option<string>)
    ensures unknown == FirstUnknown(resp.content)
    ensures fresh(oa) && oa.Valid() && oa.messageId == resp.id && (oa.textSlot < 0 ==> oa.text == "")
    ensures unknown.None? ==> Assembly(oa.items, oa.textSlot, oa.text) == Assembled(names, canon, resp.content)
  {
    hide RenderedCall;
    var content := resp.content;
    oa := new OutputAssembler(resp.id, names);
    for k := 0 to |content|
      invariant oa.Valid() && fresh(oa) && oa.names == names && oa.messageId == resp.id
                && (oa.textSlot < 0 ==> oa.text == "")
      invariant Assembly(oa.items, oa.textSlot, oa.text) == Assembled(names, canon, content[..k])
                && FirstUnknown(content[..k]).None?
    {
      assert content[..k + 1][..k] == content[..k];
      var b := content[k];
      if b.kind == "text" {
        oa.ReserveTextSlot();
        oa.AddText(b.text);
      } else if b.kind == "tool_use" {
        oa.AppendFunctionCall(b.id, b.name, canon(b.input));
      } else if !Known(b.kind) {
        UnknownSticks(content, k + 1);
        return oa, Some(b.kind);
      }
    }
    assert content[..|content|] == content;
    unknown := None;
  }

  method ClaudeToResponses(names: ToolNames, canon: string -> string, resp: BatchResponse)
    returns (r: Result<ResponsesResult, Failure>)
    ensures r == BatchResult(names, canon, resp)
  {
    hide Filled, Assembled, FirstUnknown, BatchUsage, ResponseStatusFromClaudeStop;
    var oa, unknown := Collect(names, canon, resp);
    if unknown.Some? { return Err(Unrepresentable(unknown.value)); }
    ghost var a := Assembly(oa.items, oa.textSlot, oa.text);
    var output := oa.Render();
    FilledIs(a, resp.id, output);
    return Ok(ResponsesResult(resp.id, resp.model, ResponseStatusFromClaudeStop(resp.stopReason), output,
                              BatchUsage(resp.usage)));
  }

  lemma {:induction false} UnknownSticks(content: seq<BatchBlock>, n: nat)
    requires n <= |content| && FirstUnknown(content[..n]).Some?
    ensures FirstUnknown(content) == FirstUnknown(content[..n])
    decreases |content| - n
  {
    if n == |content| {
      assert content[..n] == content;
    } else {
      assert content[..n + 1][..n] == content[..n];
      UnknownSticks(content, n + 1);
    }
  }

  // ---- what a stream says, read off its events alone ----

  /** A block with all text and all argument fragments that were sent for its index. */
  datatype Spelled = Spelled(index: int, kind: string, id: string, name: string, text: string, args: string)

  datatype Telling = Telling(id: string, model: string, stopReason: string, counts: M.Counts, blocks: seq<Spelled>)

  const NOTHING_TOLD := Telling("", "", "", M.NO_COUNTS, [])

  /** More text or arguments for the block of an index. */
  function Extended(blocks: seq<Spelled>, index: int, text: string, args: string): (r: seq<Spelled>)
    ensures |r| == |blocks|
    ensures forall k | 0 <= k < |r| ::
              r[k] == if blocks[k].index == index
              then blocks[k].(text := blocks[k].text + text, args := blocks[k].args + args) else blocks[k]
  {
    seq(|blocks|, k requires 0 <= k < |blocks| =>
      if blocks[k].index == index then blocks[k].(text := blocks[k].text + text, args := blocks[k].args + args)
      else blocks[k])
  }

  /** Cache counts override earlier ones where they are present. */
  function Counted(before: M.Counts, input: int, output: int, u: M.Counts): M.Counts {
    M.Counts(input, output, if u.cacheRead.Some? then u.cacheRead else before.cacheRead,
             if u.cacheWrite.Some? then u.cacheWrite else before.cacheWrite)
  }

  function TellMore(t: Telling, ev: M.Event): Telling {
    match ev
    case MessageStart(id, model, u) =>
      t.(id := id, model := model, counts := Counted(t.counts, u.input, t.counts.output, u))
    case MessageDelta(stop, u) =>
      t.(stopReason := stop, counts := Counted(t.counts, if u.input != 0 then u.input else t.counts.input, u.output, u))
    case BlockStart(index, kind, id, name) => t.(blocks := t.blocks + [Spelled(index, kind, id, name, "", "")])
    case TextFragment(index, text) => t.(blocks := Extended(t.blocks, index, text, ""))
    case JsonFragment(index, partial) => t.(blocks := Extended(t.blocks, index, "", partial))
    case _ => t
  }

  function Told(events: seq<M.Event>): Telling {
    if events == [] then NOTHING_TOLD else TellMore(Told(events[..|events| - 1]), events[|events| - 1])
  }

  /** An event of a stream that does not fail and has not ended, whose blocks start
      with increasing indexes; pings, block stops and thinking may come anywhere. */
  predicate Follows(t: Telling, ev: M.Event) {
    match ev
    case BlockStart(index, _, _, _) => forall k | 0 <= k < |t.blocks| :: t.blocks[k].index < index
    case JsonFragment(index, _) => exists k | 0 <= k < |t.blocks| ::
      t.blocks[k].index == index && t.blocks[k].kind == "tool_use"
    case MessageStop => false
    case Failed(_) => false
    case _ => true
  }

  predicate Steady(events: seq<M.Event>) {
    forall k | 0 <= k < |events| :: Follows(Told(events[..k]), events[k])
  }

  // ---- the converter hears it ----

  function Indexes(blocks: seq<Spelled>): (r: seq<int>)
    ensures |r| == |blocks| && forall k | 0 <= k < |r| :: r[k] == blocks[k].index
  {
    seq(|blocks|, k requires 0 <= k < |blocks| => blocks[k].index)
  }

  predicate SameBlock(b: BlockState, w: Spelled) {
    b.kind == w.kind && b.id == w.id && b.name == w.name && b.text == w.text && b.args == w.args
  }

  /** The block map holds the blocks told. */
  ghost predicate Heard(blocks: map<int, BlockState>, told: seq<Spelled>) {
    && Increasing(Indexes(told)) && Lists(Indexes(told), blocks.Keys)
    && forall k | 0 <= k < |told| :: told[k].index in blocks && SameBlock(blocks[told[k].index], told[k])
  }

  ghost predicate Hears(s: State, t: Telling) {
    && s.msgId == t.id && s.model == t.model && s.stopReason == t.stopReason
    && M.Counts(s.prompt, s.completion, s.cacheRead, s.cacheWrite) == t.counts && Heard(s.blocks, t.blocks)
  }

  lemma StartHeard(blocks: map<int, BlockState>, told: seq<Spelled>, w: Spelled, b: BlockState)
    requires Heard(blocks, told) && SameBlock(b, w) && forall k | 0 <= k < |told| :: told[k].index < w.index
    ensures Heard(blocks[w.index := b], told + [w])
  {
    hide Lists, Increasing;
    assert Indexes(told + [w]) == Indexes(told) + [w.index];
    Meaning.ListsSnoc(Indexes(told), blocks.Keys, w.index);
    assert blocks[w.index := b].Keys == blocks.Keys + {w.index};
  }

  lemma FragmentHeard(blocks: map<int, BlockState>, told: seq<Spelled>, index: int, b: BlockState, text: string,
                      args: string)
    requires Heard(blocks, told) && index in blocks
    requires b ==
               blocks[index].(text := blocks[index].text + text, args := blocks[index].args + args,
                              inputEmitted := b.inputEmitted)
    ensures Heard(blocks[index := b], Extended(told, index, text, args))
  {
    hide Lists, Increasing;
    assert Indexes(Extended(told, index, text, args)) == Indexes(told);
    assert blocks[index := b].Keys == blocks.Keys;
  }

  lemma NobodyAddressed(blocks: map<int, BlockState>, told: seq<Spelled>, index: int, text: string)
    requires Heard(blocks, told) && index !in blocks
    ensures Extended(told, index, text, "") == told
  {
  }

  lemma AddressedIsHeard(blocks: map<int, BlockState>, told: seq<Spelled>, index: int)
    requires Heard(blocks, told) && exists k | 0 <= k < |told| :: told[k].index == index && told[k].kind == "tool_use"
    ensures index in blocks && blocks[index].kind == "tool_use"
  {
  }

  lemma EventHeard(names: ToolNames, s: State, t: Telling, ev: M.Event)
    requires Hears(s, t) && Follows(t, ev)
    ensures var o := OnEvent(names, s, ev);
            o.err.None? && !o.done && Hears(o.state, TellMore(t, ev))
  {
    hide Heard, ToolDelta, CallAdded;
    match ev
    case BlockStart(index, kind, id, name) =>
      StartHeard(s.blocks, t.blocks, Spelled(index, kind, id, name, "", ""), OnEvent(names, s, ev).state.blocks[index]);
    case TextFragment(index, text) =>
      if index in s.blocks {
        assert s.blocks[index].args + "" == s.blocks[index].args;
        FragmentHeard(s.blocks, t.blocks, index, OnEvent(names, s, ev).state.blocks[index], text, "");
      } else {
        NobodyAddressed(s.blocks, t.blocks, index, text);
      }
    case JsonFragment(index, partial) =>
      AddressedIsHeard(s.blocks, t.blocks, index);
      assert s.blocks[index].text + "" == s.blocks[index].text;
      FragmentHeard(s.blocks, t.blocks, index, OnEvent(names, s, ev).state.blocks[index], "", partial);
    case _ =>
  }

  /** None of the events fails or ends the stream. */
  ghost predicate RunsOn(names: ToolNames, events: seq<M.Event>) {
    forall k | 0 <= k < |events| ::
      var o := OnEvent(names, Pieces.Run(names, Initial(), events[..k]).0, events[k]);
      o.err.None? && !o.done
  }

  lemma {:induction false} StreamHeard(names: ToolNames, events: seq<M.Event>)
    requires Steady(events)
    ensures Hears(Pieces.Run(names, Initial(), events).0, Told(events)) && RunsOn(names, events)
    decreases |events|
  {
    hide OnEvent, Follows, TellMore;
    if events == [] {
      assert Heard(map[], []);
    } else {
      hide Hears;
      var n := |events| - 1;
      var init := events[..n];
      forall k | 0 <= k < n ensures init[..k] == events[..k] && init[k] == events[k] {
      }
      assert Steady(init);
      StreamHeard(names, init);
      EventHeard(names, Pieces.Run(names, Initial(), init).0, Told(init), events[n]);
    }
  }

  // ---- the same result ----

  /** The stream says the block; a tool's arguments may be blank where the response
      has an empty object. */
  predicate Spells(canon: string -> string, b: BatchBlock, w: Spelled) {
    && w.kind == b.kind && (b.kind == "text" ==> w.text == b.text)
    && (b.kind == "tool_use" ==> w.id == b.id && w.name == b.name && DefaultArgs(w.args) == canon(b.input))
  }

  predicate Says(canon: string -> string, t: Telling, resp: BatchResponse) {
    && t.id == resp.id && t.model == resp.model && t.stopReason == resp.stopReason && t.counts == resp.usage
    && |t.blocks| == |resp.content| && forall k | 0 <= k < |t.blocks| :: Spells(canon, resp.content[k], t.blocks[k])
  }

  lemma {:induction false} SameAssembly(names: ToolNames, canon: string -> string, blocks: map<int, BlockState>,
                                        content: seq<BatchBlock>, told: seq<Spelled>, n: nat)
    requires Heard(blocks, told) && |content| == |told| && n <= |content|
    requires forall k | 0 <= k < |content| :: Spells(canon, content[k], told[k])
    ensures Meaning.InMap(blocks, Indexes(told)[..n])
    ensures Assemble(names, blocks, Indexes(told)[..n]) == Assembled(names, canon, content[..n])
    decreases n
  {
    hide RenderedCall, DefaultArgs, Lists, Increasing;
    if n > 0 {
      SameAssembly(names, canon, blocks, content, told, n - 1);
      assert Indexes(told)[..n][..n - 1] == Indexes(told)[..n - 1] && content[..n][..n - 1] == content[..n - 1];
      assert SameBlock(blocks[told[n - 1].index], told[n - 1]) && Spells(canon, content[n - 1], told[n - 1]);
    }
  }

  lemma HeardInOrder(blocks: map<int, BlockState>, told: seq<Spelled>)
    requires Heard(blocks, told)
    ensures Sorted(blocks.Keys) == Indexes(told)
  {
    SortedIsSorted(blocks.Keys);
    hide Sorted;
    Meaning.SameElementsSameOrder(Sorted(blocks.Keys), Indexes(told), blocks.Keys);
  }

  lemma {:induction false} UnknownIff(content: seq<BatchBlock>)
    ensures FirstUnknown(content).None? <==> forall k | 0 <= k < |content| :: Known(content[k].kind)
    decreases |content|
  {
    if content != [] { UnknownIff(content[..|content| - 1]); }
  }

  /** Streaming a response and converting it at once give the same result: identity,
      status, usage and output array, for every stream that says the response.  The
      one difference: converting at once refuses block kinds that a stream passes over. */
  lemma StreamAgreesWithBatch(names: ToolNames, canon: string -> string, resp: BatchResponse, events: seq<M.Event>)
    requires Steady(events) && Says(canon, Told(events), resp)
    ensures RunsOn(names, events)
    ensures var o := OnEvent(names, Pieces.Run(names, Initial(), events).0, M.MessageStop);
            var batch := BatchResult(names, canon, resp);
            && o.done && o.events == TerminalOf(names, Pieces.Run(names, Initial(), events).0) != []
            && (batch.Ok? <==> forall k | 0 <= k < |resp.content| :: Known(resp.content[k].kind))
            && (batch.Ok? ==> var r := batch.value;
                              o.events[|o.events| - 1] == Completed(r.id, r.model, r.status, r.usage, r.output))
  {
    hide Assemble, Assembled, Filled, Completions, Sorted, Spells, Pieces.Run, Heard, Told, Steady, RunsOn;
    StreamHeard(names, events);
    var s, t := Pieces.Run(names, Initial(), events).0, Told(events);
    HeardInOrder(s.blocks, t.blocks);
    SameAssembly(names, canon, s.blocks, resp.content, t.blocks, |t.blocks|);
    assert Indexes(t.blocks)[..|t.blocks|] == Indexes(t.blocks) && resp.content[..|t.blocks|] == resp.content;
    UnknownIff(resp.content);
  }

  // ---- well-formed streams are such streams ----

  ghost predicate Agrees(t: Telling, r: Pieces.Reading) {
    && (forall k | 0 <= k < |t.blocks| :: r.last.Some? && t.blocks[k].index <= r.last.value)
    && (forall i | i in r.tools :: exists k ::
        0 <= k < |t.blocks| && t.blocks[k].index == i && t.blocks[k].kind == "tool_use")
  }

  lemma EventAgrees(t: Telling, r: Pieces.Reading, ev: M.Event)
    requires Agrees(t, r) && Pieces.Fits(r, ev)
    ensures Follows(t, ev) && Agrees(TellMore(t, ev), Pieces.ReadEvent(r, ev).0)
  {
    var t', r' := TellMore(t, ev), Pieces.ReadEvent(r, ev).0;
    forall k | 0 <= k < |t.blocks| ensures t'.blocks[k].index == t.blocks[k].index
        && t'.blocks[k].kind == t.blocks[k].kind {
    }
    if ev.JsonFragment? { assert ev.index in r.tools; }
    forall i | i in r'.tools ensures exists k ::
      0 <= k < |t'.blocks| && t'.blocks[k].index == i && t'.blocks[k].kind == "tool_use" {
      if i in r.tools {
        var k :| 0 <= k < |t.blocks| && t.blocks[k].index == i && t.blocks[k].kind == "tool_use";
        assert t'.blocks[k].index == i;
      } else {
        assert ev.BlockStart? && i == ev.index;
        assert t'.blocks[|t.blocks|].index == i;
      }
    }
  }

  lemma SteadySnoc(events: seq<M.Event>, ev: M.Event)
    requires Steady(events) && Follows(Told(events), ev)
    ensures Steady(events + [ev]) && Told(events + [ev]) == TellMore(Told(events), ev)
  {
    hide Follows, TellMore;
    var all := events + [ev];
    assert all[..|events|] == events;
    forall k | 0 <= k < |events| ensures all[..k] == events[..k] && all[k] == events[k] {
    }
  }

  lemma {:induction false} BlocksAreSteady(start: M.Event, blocks: seq<M.Event>)
    requires start.MessageStart? && Pieces.WellFormed(blocks)
    ensures Steady([start] + blocks) && Agrees(Told([start] + blocks), Pieces.ReadEvents(blocks).0)
    decreases |blocks|
  {
    hide Follows, Agrees, Steady;
    if blocks == [] {
      assert [start] + blocks == [] + [start];
      StartIsSteady(start);
    } else {
      var init, ev := blocks[..|blocks| - 1], blocks[|blocks| - 1];
      BlocksAreSteady(start, init);
      EventAgrees(Told([start] + init), Pieces.ReadEvents(init).0, ev);
      SteadySnoc([start] + init, ev);
      assert [start] + init + [ev] == [start] + blocks;
    }
  }

  lemma StartIsSteady(start: M.Event)
    requires start.MessageStart?
    ensures Steady([] + [start]) && Agrees(Told([] + [start]), Pieces.NOTHING)
  {
    SteadySnoc([], start);
  }

  /** A well-formed stream, from message_start to message_delta with pings and block
      stops anywhere in between, is steady. */
  lemma WellFormedIsSteady(st: Pieces.Stream)
    requires Pieces.WellFormed(st.blocks)
    ensures Steady([M.MessageStart(st.id, st.model, st.startUsage)] + st.blocks +
                   [M.MessageDelta(st.stopReason, st.usage)])
  {
    hide Steady;
    BlocksAreSteady(M.MessageStart(st.id, st.model, st.startUsage), st.blocks);
    SteadySnoc([M.MessageStart(st.id, st.model, st.startUsage)] + st.blocks, M.MessageDelta(st.stopReason, st.usage));
  }

  // ---- what is refused ----

  /** A response is refused if and only if it has a block of another kind than these four,
      and then for the first. */
  lemma {:induction false} RefusedIff(names: ToolNames, canon: string -> string, resp: BatchResponse)
    ensures var r, kinds := BatchResult(names, canon, resp), {"text", "tool_use", "thinking", "redacted_thinking"};
            && (r.Ok? <==> forall k | 0 <= k < |resp.content| :: resp.content[k].kind in kinds)
            && (r.Err? ==> exists k ::
                  0 <= k < |resp.content| && resp.content[k].kind !in kinds
                  && r.error == Failure("output cannot represent " + resp.content[k].kind + " content blocks")
                  && forall j | 0 <= j < k :: resp.content[j].kind in kinds)
  {
    hide Filled, Assembled, BatchUsage;
    UnknownIsFirst(resp.content);
  }

  lemma {:induction false} UnknownIsFirst(content: seq<BatchBlock>)
    ensures FirstUnknown(content).None? ==> forall k | 0 <= k < |content| :: Known(content[k].kind)
    ensures FirstUnknown(content).Some? ==> exists k ::
              0 <= k < |content| && content[k].kind == FirstUnknown(content).value && !Known(content[k].kind)
              && forall j | 0 <= j < k :: Known(content[j].kind)
    decreases |content|
  {
    hide Known;
    if content != [] {
      var n := |content| - 1;
      UnknownIsFirst(content[..n]);
      assert forall k | 0 <= k < n :: content[..n][k] == content[k];
      if FirstUnknown(content[..n]).Some? {
        var k :| 0 <= k < n && content[..n][k].kind == FirstUnknown(content[..n]).value
                 && !Known(content[..n][k].kind) && forall j | 0 <= j < k :: Known(content[..n][j].kind);
        assert content[k].kind == FirstUnknown(content).value;
      }
    }
  }
}
