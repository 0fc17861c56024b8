/** The Anthropic Messages event stream as its client reads it: a fold that
    rebuilds the message and refuses whatever breaks the block discipline. */
module ClaudeClient {
  import opened Basics
  import opened Wire

  datatype ClaudeEvent =
    | MessageStart(id: string, model: string, input: int)
    | TextStart(index: int)
    | ToolStart(index: int, id: string, name: string)
    | BlockText(index: int, text: string)
    | BlockJson(index: int, json: string)
    | BlockStop(index: int)
    | MessageDelta(stop: string, usage: ClaudeUsage)
    | MessageStop

  datatype Block =
    | TextBlock(text: string)
    | ToolBlock(id: string, name: string, json: string)

  datatype Final = Final(stop: string, usage: ClaudeUsage)

  datatype Head = Head(id: string, model: string, input: int)

  datatype Client = Client(head: Option<Head>, blocks: seq<Block>, open: Option<nat>, final: Option<Final>, ended: bool)

  const NEW_CLIENT := Client(None, [], None, None, false)

  /** One event.  message_start comes first and once.  Blocks start with consecutive
      indexes and with no other block open; only the open block is stopped;
      message_delta comes at most once and with no block open, and so does
      message_stop, after which nothing is accepted.  A lenient client adds a delta
      to any block of its kind, a strict one only to the open block. */
  function Accept(strict: bool, c: Client, e: ClaudeEvent): Option<Client> {
    if c.ended || (c.head.None? && !e.MessageStart?) then None
    else
      match e
      case MessageStart(id, model, input) =>
        if c.head.Some? then None else Some(c.(head := Some(Head(id, model, input))))
      case TextStart(i) =>
        if c.open.Some? || i != |c.blocks| then None
        else Some(c.(blocks := c.blocks + [TextBlock("")], open := Some(i)))
      case ToolStart(i, id, name) =>
        if c.open.Some? || i != |c.blocks| then None
        else Some(c.(blocks := c.blocks + [ToolBlock(id, name, "")], open := Some(i)))
      case BlockText(i, t) =>
        if !(0 <= i < |c.blocks| && c.blocks[i].TextBlock?) || (strict && c.open != Some(i)) then None
        else Some(c.(blocks := c.blocks[i := TextBlock(c.blocks[i].text + t)]))
      case BlockJson(i, j) =>
        if !(0 <= i < |c.blocks| && c.blocks[i].ToolBlock?) || (strict && c.open != Some(i)) then None
        else Some(c.(blocks := c.blocks[i := c.blocks[i].(json := c.blocks[i].json + j)]))
      case BlockStop(i) =>
        if !(0 <= i < |c.blocks|) || c.open != Some(i) then None else Some(c.(open := None))
      case MessageDelta(stop, usage) =>
        if c.open.Some? || c.final.Some? then None else Some(c.(final := Some(Final(stop, usage))))
      case MessageStop =>
        if c.open.Some? then None else Some(c.(ended := true))
  }

  function Read(strict: bool, c: Client, events: seq<ClaudeEvent>): Option<Client> {
    if events == [] then Some(c)
    else
      match Read(strict, c, events[..|events| - 1])
      case None => None
      case Some(c1) => Accept(strict, c1, events[|events| - 1])
  }

  lemma {:induction false} ReadAppend(strict: bool, c: Client, a: seq<ClaudeEvent>, b: seq<ClaudeEvent>)
    ensures Read(strict, c, a + b) ==
            match Read(strict, c, a) case None => None case Some(c1) => Read(strict, c1, b)
    decreases |b|
  {
    hide Accept;
    if b == [] {
      assert a + b == a;
    } else {
      assert (a + b)[..|a + b| - 1] == a + b[..|b| - 1];
      ReadAppend(strict, c, a, b[..|b| - 1]);
    }
  }

  lemma ReadOne(strict: bool, c: Client, e: ClaudeEvent)
    ensures Read(strict, c, [e]) == Accept(strict, c, e)
  {
    assert [e][..0] == [];
  }

  lemma ReadThen(strict: bool, c: Client, a: seq<ClaudeEvent>, e: ClaudeEvent)
    ensures Read(strict, c, a + [e]) ==
            match Read(strict, c, a) case None => None case Some(c1) => Accept(strict, c1, e)
  {
    assert (a + [e])[..|a|] == a;
  }

  // ---- strict and lenient ----

  predicate IsDelta(e: ClaudeEvent) {
    e.BlockText? || e.BlockJson?
  }

  /** A delta is for the open block. */
  predicate NamesOpen(c: Client, e: ClaudeEvent) {
    IsDelta(e) ==> c.open.Some? && c.open.value == e.index
  }

  lemma StrictAccept(c: Client, e: ClaudeEvent)
    ensures Accept(true, c, e) == if NamesOpen(c, e) then Accept(false, c, e) else None
  {
  }

  /** Strictness is about deltas only. */
  lemma {:induction false} StrictRead(c: Client, events: seq<ClaudeEvent>)
    requires forall k | 0 <= k < |events| :: !IsDelta(events[k])
    ensures Read(true, c, events) == Read(false, c, events)
    decreases |events|
  {
    if events != [] {
      hide Accept;
      var init, e := events[..|events| - 1], events[|events| - 1];
      StrictRead(c, init);
      if Read(false, c, init).Some? { StrictAccept(Read(false, c, init).value, e); }
    }
  }

  lemma StrictReadThen(c: Client, events: seq<ClaudeEvent>, e: ClaudeEvent)
    requires (forall k | 0 <= k < |events| :: !IsDelta(events[k])) && Read(false, c, events).Some?
    ensures Read(true, c, events + [e]) ==
            if NamesOpen(Read(false, c, events).value, e) then Read(false, c, events + [e]) else None
  {
    hide Accept, Read;
    StrictRead(c, events);
    ReadThen(true, c, events, e);
    ReadThen(false, c, events, e);
    StrictAccept(Read(false, c, events).value, e);
  }

  // ---- what acceptance means ----

  datatype Mark = StartOf(index: int) | StopOf(index: int) | HeadMark | FinalMark

  predicate Marks(e: ClaudeEvent, m: Mark) {
    match m
    case StartOf(i) => (e.TextStart? || e.ToolStart?) && e.index == i
    case StopOf(i) => e.BlockStop? && e.index == i
    case HeadMark => e.MessageStart?
    case FinalMark => e.MessageDelta?
  }

  function Count(events: seq<ClaudeEvent>, m: Mark): nat {
    if events == [] then 0
    else Count(events[..|events| - 1], m) + if Marks(events[|events| - 1], m) then 1 else 0
  }

  /** How often each mark occurs in what brought the client here. */
  function Expected(c: Client, m: Mark): nat {
    match m
    case StartOf(i) => if 0 <= i < |c.blocks| then 1 else 0
    case StopOf(i) => if 0 <= i < |c.blocks| && c.open != Some(i) then 1 else 0
    case HeadMark => if c.head.Some? then 1 else 0
    case FinalMark => if c.final.Some? then 1 else 0
  }

  lemma AcceptMarks(strict: bool, c: Client, e: ClaudeEvent, m: Mark)
    requires Accept(strict, c, e).Some? && (c.open.Some? ==> c.open.value < |c.blocks|)
    ensures var c' := Accept(strict, c, e).value;
            && Expected(c', m) == Expected(c, m) + (if Marks(e, m) then 1 else 0)
            && !c.ended && (c'.ended <==> e == MessageStop) && (c'.open.Some? ==> c'.open.value < |c'.blocks|)
  {
  }

  /** In an accepted stream every block was started once, and stopped once unless
      it is open still; message_delta and message_stop came at most once, and
      nothing followed message_stop. */
  lemma {:induction false} AcceptedStreamsArePaired(strict: bool, events: seq<ClaudeEvent>, i: int)
    requires Read(strict, NEW_CLIENT, events).Some?
    ensures var c := Read(strict, NEW_CLIENT, events).value;
            && Count(events, StartOf(i)) == (if 0 <= i < |c.blocks| then 1 else 0)
            && Count(events, StopOf(i)) == (if 0 <= i < |c.blocks| && c.open != Some(i) then 1 else 0)
            && Count(events, FinalMark) == (if c.final.Some? then 1 else 0)
            && Count(events, HeadMark) == (if c.head.Some? then 1 else 0)
            && (forall k | 0 <= k < |events| && events[k] == MessageStop :: k == |events| - 1)
            && (c.ended <==> events != [] && events[|events| - 1] == MessageStop)
            && (c.open.Some? ==> c.open.value < |c.blocks|)
    decreases |events|
  {
    if events != [] {
      hide Accept, Marks;
      var init, e := events[..|events| - 1], events[|events| - 1];
      AcceptedStreamsArePaired(strict, init, i);
      var c := Read(strict, NEW_CLIENT, init).value;
      AcceptMarks(strict, c, e, StartOf(i));
      AcceptMarks(strict, c, e, StopOf(i));
      AcceptMarks(strict, c, e, HeadMark);
      AcceptMarks(strict, c, e, FinalMark);
    }
  }

  // ---- the envelope and the blocks, taken apart ----

  /** A client that has had its message_start. */
  const STARTED := NEW_CLIENT.(head := Some(Head("", "", 0)))

  /** message_start comes first and once. */
  predicate Enveloped(events: seq<ClaudeEvent>) {
    forall k | 0 <= k < |events| :: events[k].MessageStart? <==> k == 0
  }

  function Unheaded(events: seq<ClaudeEvent>): seq<ClaudeEvent> {
    if events == [] then []
    else Unheaded(events[..|events| - 1]) + if events[|events| - 1].MessageStart? then [] else [events[|events| - 1]]
  }

  lemma {:induction false} UnheadedAppend(a: seq<ClaudeEvent>, b: seq<ClaudeEvent>)
    ensures Unheaded(a + b) == Unheaded(a) + Unheaded(b)
    decreases |b|
  {
    if b == [] {
      assert a + b == a;
    } else {
      assert (a + b)[..|a + b| - 1] == a + b[..|b| - 1];
      UnheadedAppend(a, b[..|b| - 1]);
    }
  }

  lemma {:induction false} NothingToDrop(events: seq<ClaudeEvent>)
    requires forall k | 0 <= k < |events| :: !events[k].MessageStart?
    ensures Unheaded(events) == events
    decreases |events|
  {
    if events != [] { NothingToDrop(events[..|events| - 1]); }
  }

  /** A stream is accepted exactly when its envelope is right and its blocks are
      accepted without it. */
  lemma {:induction false} EnvelopeAndBlocks(strict: bool, events: seq<ClaudeEvent>)
    ensures var c, blocks := Read(strict, NEW_CLIENT, events), Read(strict, STARTED, Unheaded(events));
            && (c.Some? <==> Enveloped(events) && blocks.Some?)
            && (c.Some? ==> c.value == blocks.value.(head := c.value.head))
            && (c.Some? ==>
                c.value.head == if events == [] then None
                else Some(Head(events[0].id, events[0].model, events[0].input)))
            && (blocks.Some? ==> blocks.value.head == STARTED.head)
    decreases |events|
  {
    if events != [] {
      hide Accept, Enveloped;
      var init, e := events[..|events| - 1], events[|events| - 1];
      EnvelopeAndBlocks(strict, init);
      EnvelopedSnoc(init, e);
      assert init + [e] == events;
      var before := Read(strict, STARTED, Unheaded(init));
      if e.MessageStart? {
        assert Unheaded(events) == Unheaded(init);
        FirstHead(strict, e);
      } else {
        ReadThen(strict, STARTED, Unheaded(init), e);
        HeadIsNeeded(strict, NEW_CLIENT, e);
        if before.Some? { HeadIsKept(strict, before.value, e); }
      }
      if Read(strict, NEW_CLIENT, init).Some? {
        var c := Read(strict, NEW_CLIENT, init).value;
        if c.head.Some? {
          if e.MessageStart? { SecondHead(strict, c, e); } else { HeadIsFree(strict, c, before.value, e); }
        }
      }
    } else {
      NothingIsEnveloped();
    }
  }

  lemma NothingIsEnveloped()
    ensures Enveloped([])
  {
  }

  lemma FirstHead(strict: bool, e: ClaudeEvent)
    requires e.MessageStart?
    ensures Accept(strict, NEW_CLIENT, e) == Some(NEW_CLIENT.(head := Some(Head(e.id, e.model, e.input))))
  {
  }

  lemma SecondHead(strict: bool, c: Client, e: ClaudeEvent)
    requires e.MessageStart? && c.head.Some?
    ensures Accept(strict, c, e) == None
  {
  }

  lemma HeadIsNeeded(strict: bool, c: Client, e: ClaudeEvent)
    requires c.head.None? && !e.MessageStart?
    ensures Accept(strict, c, e) == None
  {
  }

  lemma HeadIsKept(strict: bool, c: Client, e: ClaudeEvent)
    requires !e.MessageStart?
    ensures Accept(strict, c, e).Some? ==> Accept(strict, c, e).value.head == c.head
  {
  }

  lemma HeadIsFree(strict: bool, c: Client, b: Client, e: ClaudeEvent)
    requires c.head.Some? && b.head.Some? && c == b.(head := c.head) && !e.MessageStart?
    ensures Accept(strict, c, e).Some? <==> Accept(strict, b, e).Some?
    ensures Accept(strict, c, e).Some? ==> Accept(strict, c, e).value == Accept(strict, b, e).value.(head := c.head)
  {
  }

  lemma EnvelopedSnoc(events: seq<ClaudeEvent>, e: ClaudeEvent)
    ensures Enveloped(events + [e]) <==> Enveloped(events) && (e.MessageStart? <==> events == [])
  {
    var all := events + [e];
    assert all[|events|] == e && forall k | 0 <= k < |events| :: all[k] == events[k];
  }

  // ---- what the message says ----

  function TextOf(blocks: seq<Block>): string {
    if blocks == [] then ""
    else TextOf(blocks[..|blocks| - 1]) +
         match blocks[|blocks| - 1] case TextBlock(t) => t case _ => ""
  }

  function ToolsOf(blocks: seq<Block>): seq<Block> {
    if blocks == [] then []
    else ToolsOf(blocks[..|blocks| - 1]) +
         (if blocks[|blocks| - 1].ToolBlock? then [blocks[|blocks| - 1]] else [])
  }

  lemma BlocksSnoc(blocks: seq<Block>, b: Block)
    ensures TextOf(blocks + [b]) == TextOf(blocks) + match b case TextBlock(t) => t case _ => ""
    ensures ToolsOf(blocks + [b]) == ToolsOf(blocks) + if b.ToolBlock? then [b] else []
  {
    assert (blocks + [b])[..|blocks|] == blocks;
  }

  /** The p-th block, a tool, is the tool numbered by how many come before it;
      changing it changes that tool alone. */
  lemma {:induction false} ToolChanges(blocks: seq<Block>, p: nat, b: Block)
    requires p < |blocks| && blocks[p].ToolBlock? && b.ToolBlock?
    ensures var k, tools := |ToolsOf(blocks[..p])|, ToolsOf(blocks);
            && k < |tools| && tools[k] == blocks[p]
            && ToolsOf(blocks[p := b]) == tools[k := b] && TextOf(blocks[p := b]) == TextOf(blocks)
    decreases |blocks|
  {
    hide ToolsOf, TextOf;
    var n := |blocks| - 1;
    var init := blocks[..n];
    assert blocks == init + [blocks[n]];
    BlocksSnoc(init, blocks[n]);
    if p == n {
      assert blocks[p := b] == init + [b];
      BlocksSnoc(init, b);
    } else {
      assert init[..p] == blocks[..p] && blocks[p := b] == init[p := b] + [blocks[n]];
      ToolChanges(init, p, b);
      BlocksSnoc(init[p := b], blocks[n]);
    }
  }

  /** More text at the last block, a text block, is more text at the end. */
  lemma TextGrows(blocks: seq<Block>, t: string)
    requires blocks != [] && blocks[|blocks| - 1].TextBlock?
    ensures var p := |blocks| - 1;
            && TextOf(blocks[p := TextBlock(blocks[p].text + t)]) == TextOf(blocks) + t
            && ToolsOf(blocks[p := TextBlock(blocks[p].text + t)]) == ToolsOf(blocks)
  {
    var p := |blocks| - 1;
    assert blocks[p := TextBlock(blocks[p].text + t)][..p] == blocks[..p];
  }

  // ---- positions of the tool blocks ----

  /** The k-th call seen has the k-th tool block. */
  ghost predicate Placed<K(!new)>(slots: map<K, nat>, blocks: seq<Block>, seen: seq<K>) {
    && |ToolsOf(blocks)| == |seen|
    && (forall i :: i in slots <==> i in seen)
    && (forall k | 0 <= k < |seen| ::
          && seen[k] in slots && slots[seen[k]] < |blocks| && blocks[slots[seen[k]]].ToolBlock?
          && |ToolsOf(blocks[..slots[seen[k]]])| == k)
  }

  lemma PlacedText<K(!new)>(slots: map<K, nat>, blocks: seq<Block>, seen: seq<K>, text: string)
    requires Placed(slots, blocks, seen)
    ensures Placed(slots, blocks + [TextBlock(text)], seen)
    ensures ToolsOf(blocks + [TextBlock(text)]) == ToolsOf(blocks)
    ensures TextOf(blocks + [TextBlock(text)]) == TextOf(blocks) + text
  {
    var blocks' := blocks + [TextBlock(text)];
    BlocksSnoc(blocks, TextBlock(text));
    forall k | 0 <= k < |seen| ensures blocks'[..slots[seen[k]]] == blocks[..slots[seen[k]]] {
    }
    assert ToolsOf(blocks) + [] == ToolsOf(blocks);
  }

  lemma PlacedMoreText<K(!new)>(slots: map<K, nat>, blocks: seq<Block>, seen: seq<K>, text: string)
    requires Placed(slots, blocks, seen) && blocks != [] && blocks[|blocks| - 1].TextBlock?
    ensures var p := |blocks| - 1;
            Placed(slots, blocks[p := TextBlock(blocks[p].text + text)], seen)
  {
    var p := |blocks| - 1;
    var blocks' := blocks[p := TextBlock(blocks[p].text + text)];
    TextGrows(blocks, text);
    forall k | 0 <= k < |seen|
      ensures slots[seen[k]] < p && blocks'[..slots[seen[k]]] == blocks[..slots[seen[k]]]
    {
    }
  }

  lemma {:induction false} PlacedTool<K(!new)>(slots: map<K, nat>, blocks: seq<Block>, seen: seq<K>, index: K, b: Block)
    requires Placed(slots, blocks, seen) && index !in seen && b.ToolBlock?
    ensures Placed(slots[index := |blocks|], blocks + [b], seen + [index])
    ensures ToolsOf(blocks + [b]) == ToolsOf(blocks) + [b] && TextOf(blocks + [b]) == TextOf(blocks)
  {
    hide ToolsOf, TextOf;
    var slots', blocks', seen' := slots[index := |blocks|], blocks + [b], seen + [index];
    BlocksSnoc(blocks, b);
    assert forall i :: i in seen' <==> i in seen || i == index;
    forall k | 0 <= k < |seen'|
      ensures seen'[k] in slots' && slots'[seen'[k]] < |blocks'| && blocks'[slots'[seen'[k]]].ToolBlock?
      ensures |ToolsOf(blocks'[..slots'[seen'[k]]])| == k
    {
      if k < |seen| {
        assert seen'[k] == seen[k] && seen[k] in seen;
        assert blocks'[..slots[seen[k]]] == blocks[..slots[seen[k]]];
      } else {
        assert blocks'[..|blocks|] == blocks;
      }
    }
    assert TextOf(blocks) + "" == TextOf(blocks);
  }

  lemma PlacedArguments<K(!new)>(slots: map<K, nat>, blocks: seq<Block>, seen: seq<K>, k: nat, b: Block)
    requires Placed(slots, blocks, seen) && k < |seen| && b.ToolBlock?
    ensures var p := slots[seen[k]];
            && p < |blocks| && k < |ToolsOf(blocks)| && ToolsOf(blocks)[k] == blocks[p]
            && Placed(slots, blocks[p := b], seen)
            && ToolsOf(blocks[p := b]) == ToolsOf(blocks)[k := b] && TextOf(blocks[p := b]) == TextOf(blocks)
  {
    var p := slots[seen[k]];
    ToolChanges(blocks, p, b);
    forall j | 0 <= j < |seen| ensures |ToolsOf(blocks[p := b][..slots[seen[j]]])| == j {
      var q := slots[seen[j]];
      if p < q {
        ToolChanges(blocks[..q], p, b);
        assert blocks[p := b][..q] == blocks[..q][p := b];
      } else {
        assert blocks[p := b][..q] == blocks[..q];
      }
    }
  }

  // ---- the discipline, read off the events alone ----

  function Starts(events: seq<ClaudeEvent>): seq<ClaudeEvent> {
    if events == [] then []
    else
      var last := events[|events| - 1];
      Starts(events[..|events| - 1]) + if last.TextStart? || last.ToolStart? then [last] else []
  }

  /** The block started last, unless a block was stopped since. */
  function OpenNow(events: seq<ClaudeEvent>): Option<int> {
    if events == [] then None
    else match events[|events| - 1]
      case TextStart(i) => Some(i)
      case ToolStart(i, _, _) => Some(i)
      case BlockStop(_) => None
      case _ => OpenNow(events[..|events| - 1])
  }

  predicate Came(events: seq<ClaudeEvent>, m: Mark) {
    exists k | 0 <= k < |events| :: Marks(events[k], m)
  }

  /** What may follow what. */
  predicate Legal(strict: bool, before: seq<ClaudeEvent>, e: ClaudeEvent) {
    var open, starts := OpenNow(before), Starts(before);
    && MessageStop !in before && (e.MessageStart? <==> before == [])
    && match e
       case MessageStart(_, _, _) => true
       case TextStart(i) => open == None && i == |starts|
       case ToolStart(i, _, _) => open == None && i == |starts|
       case BlockText(i, _) => 0 <= i < |starts| && starts[i].TextStart? && (strict ==> open == Some(i))
       case BlockJson(i, _) => 0 <= i < |starts| && starts[i].ToolStart? && (strict ==> open == Some(i))
       case BlockStop(i) => open == Some(i)
       case MessageDelta(_, _) => open == None && !Came(before, FinalMark)
       case MessageStop => open == None
  }

  ghost predicate Stands(c: Client, events: seq<ClaudeEvent>) {
    var starts := Starts(events);
    && (c.head.Some? <==> events != []) && (c.ended <==> MessageStop in events)
    && (c.final.Some? <==> Came(events, FinalMark))
    && |c.blocks| == |starts| && (forall i | 0 <= i < |starts| :: c.blocks[i].TextBlock? <==> starts[i].TextStart?)
    && (if c.open.Some? then OpenNow(events) == Some(c.open.value) && c.open.value < |c.blocks|
        else OpenNow(events) == None)
    && forall k | 0 <= k < |starts| :: starts[k].TextStart? || starts[k].ToolStart?
  }

  lemma EventStands(strict: bool, c: Client, events: seq<ClaudeEvent>, e: ClaudeEvent)
    requires Stands(c, events)
    ensures Accept(strict, c, e).Some? <==> Legal(strict, events, e)
    ensures Accept(strict, c, e).Some? ==> Stands(Accept(strict, c, e).value, events + [e])
  {
    hide Came;
    var all := events + [e];
    assert all[..|events|] == events && all[|events|] == e;
    CameSnoc(events, e);
    assert MessageStop in all <==> MessageStop in events || e == MessageStop;
    assert Starts(all) == Starts(events) + if e.TextStart? || e.ToolStart? then [e] else [];
    assert OpenNow(all) == match e
      case TextStart(i) => Some(i)
      case ToolStart(i, _, _) => Some(i)
      case BlockStop(_) => None
      case _ => OpenNow(events);
    hide Starts, OpenNow;
  }

  lemma CameSnoc(events: seq<ClaudeEvent>, e: ClaudeEvent)
    ensures Came(events + [e], FinalMark) <==> Came(events, FinalMark) || e.MessageDelta?
  {
    var all := events + [e];
    assert all[|events|] == e && forall k | 0 <= k < |events| :: all[k] == events[k];
    if Came(events, FinalMark) {
      var k :| 0 <= k < |events| && Marks(events[k], FinalMark);
      assert Marks(all[k], FinalMark);
    }
    if e.MessageDelta? { assert Marks(all[|events|], FinalMark); }
  }

  /** A stream is accepted if and only if each of its events may follow those before it:
      message_start first and only first, blocks one after the other under consecutive
      indexes, each stopped before anything else starts or the message ends, deltas for
      started blocks of their kind, one message_delta, nothing behind message_stop. */
  lemma {:induction false} AcceptedIff(strict: bool, events: seq<ClaudeEvent>)
    ensures var c := Read(strict, NEW_CLIENT, events);
            && (c.Some? <==> forall k | 0 <= k < |events| :: Legal(strict, events[..k], events[k]))
            && (c.Some? ==> Stands(c.value, events))
    decreases |events|
  {
    hide Accept, Legal, Stands;
    if events == [] {
      NothingStands();
    } else {
      var n := |events| - 1;
      var init, e := events[..n], events[n];
      AcceptedIff(strict, init);
      assert forall k | 0 <= k < n :: init[..k] == events[..k] && init[k] == events[k];
      var c := Read(strict, NEW_CLIENT, init);
      if c.Some? {
        EventStands(strict, c.value, init, e);
        assert init + [e] == events;
      }
    }
  }

  lemma NothingStands()
    ensures Stands(NEW_CLIENT, [])
  {
  }
}
