/** What an Anthropic client reads off a converted Responses stream, up to its
    first terminal event. */
module ResponsesClaudeMeaning {
  import opened Basics
  import opened Wire
  import opened LineFeed
  import opened FrameFeed
  import Framing
  import opened ToolTracking
  import opened ResponsesEvents
  import opened ResponsesCalls
  import opened ClaudeClient
  import opened ResponsesToClaude

  // ---- the block discipline, for any names whatsoever ----

  /** The client's blocks are the converter's; text is open only as the last
      block; every name the tracker knows leads to a tool block. */
  ghost predicate Agrees(s: State, c: Client, events: seq<UpEvent>) {
    && c.head.Some? && c.final.None? && !c.ended
    && |c.blocks| == s.next && c.open == s.open && (s.open.Some? ==> s.open.value < s.next)
    && (s.textOpen ==> s.open.Some? && s.textIndex == s.open.value == s.next - 1 && c.blocks[s.textIndex].TextBlock?)
    && (forall k | k in s.table.keys :: s.table.keys[k] < s.next && c.blocks[s.table.keys[k]].ToolBlock?)
    && TextOf(c.blocks) == Spoken(events) && (s.toolsSeen <==> CallsSeen(events))
  }

  lemma ClosingAccepted(s: State, c: Client)
    requires c.open == s.open && !c.ended && |c.blocks| == s.next && (s.open.Some? ==> s.open.value < s.next)
             && c.head.Some?
    ensures Read(false, c, Closing(s)) == Some(c.(open := None))
  {
    if s.open.Some? { ReadOne(false, c, BlockStop(s.open.value)); }
  }

  lemma TextAgrees(s: State, c: Client, events: seq<UpEvent>, delta: string)
    requires Agrees(s, c, events)
    ensures var (s', more) := OnText(s, delta);
            var c' := Read(false, c, more);
            && c'.Some? && Agrees(s', c'.value, events + [OutputText(delta)]) && c'.value.head == c.head
            && s'.table == s.table && s.next <= s'.next
            && ToolsOf(c'.value.blocks) == ToolsOf(c.blocks)
            && c'.value.blocks ==
                 (if s.textOpen then c.blocks[s.textIndex := TextBlock(c.blocks[s.textIndex].text + delta)]
                                   else c.blocks + [TextBlock(delta)])
  {
    hide Spoken, CallsSeen, TextOf, ToolsOf, Read;
    SpokenSnoc(events, OutputText(delta));
    if s.textOpen {
      ReadOne(false, c, BlockText(s.textIndex, delta));
      TextGrows(c.blocks, delta);
    } else {
      NewTextRead(s, c, delta);
      BlocksSnoc(c.blocks, TextBlock(delta));
      assert ToolsOf(c.blocks) + [] == ToolsOf(c.blocks);
    }
  }

  lemma NewTextRead(s: State, c: Client, delta: string)
    requires !s.textOpen && c.open == s.open && !c.ended && |c.blocks| == s.next
             && (s.open.Some? ==> s.open.value < s.next) && c.head.Some?
    ensures Read(false, c, OnText(s, delta).1) ==
              Some(c.(blocks := c.blocks + [TextBlock(delta)], open := Some(s.next)))
  {
    hide Read;
    var i := s.next;
    ClosingAccepted(s, c);
    ReadThen(false, c, Closing(s), TextStart(i));
    ReadThen(false, c, Closing(s) + [TextStart(i)], BlockText(i, delta));
    assert "" + delta == delta;
    assert (c.blocks + [TextBlock("")])[i := TextBlock(delta)] == c.blocks + [TextBlock(delta)];
  }

  lemma ResolveKeys(t: Table, next: nat, key: string, alias: string)
    ensures var (t', first, index) := Resolve(t, next, key, alias);
            && (forall k | k in t'.keys :: t'.keys[k] == index || (k in t.keys && t'.keys[k] == t.keys[k]))
            && (first ==> index == next) && (!first ==> exists k :: k in t.keys && t.keys[k] == index)
  {
    var (t', first, index) := Resolve(t, next, key, alias);
    if key in t.keys {
      assert t.keys[key] == index;
    } else if alias in t.keys {
      assert t.keys[alias] == index;
    }
  }

  lemma AnswerKeys(t: Table, next: nat, ev: UpEvent)
    requires Touched(ev).Some?
    ensures var seen := SightingOf(t, next, ev);
            && (forall k | k in seen.table.keys ::
                seen.table.keys[k] == seen.index || (k in t.keys && seen.table.keys[k] == t.keys[k]))
            && (seen.first ==> seen.index == next)
            && (!seen.first ==> exists k :: k in t.keys && t.keys[k] == seen.index)
  {
    hide Resolve;
    match ev
    case OutputItem(item) => ResolveKeys(t, next, item.callId, item.id);
    case ArgsFragment(itemId, _) => ResolveKeys(t, next, itemId, "");
    case _ =>
  }

  /** The blocks after an event of a call. */
  function Applied(blocks: seq<Block>, seen: Sighting, ev: UpEvent): seq<Block>
    requires Touched(ev).Some?
  {
    var known := if seen.first then blocks + [Blank(ev)] else blocks;
    if seen.index < |known| then known[seen.index := Grown(known[seen.index], Said(seen, ev))] else known
  }

  /** What the converter does with an event of a call. */
  function CallEvents(s: State, ev: UpEvent): (State, seq<ClaudeEvent>)
    requires Touched(ev).Some?
  {
    match ev
    case OutputItem(item) => OnItem(s, item)
    case ArgsFragment(itemId, delta) => OnFragment(s, itemId, delta)
  }

  lemma GrownNothing(blocks: seq<Block>, i: nat)
    requires i < |blocks| && blocks[i].ToolBlock?
    ensures blocks[i := Grown(blocks[i], "")] == blocks
  {
    assert blocks[i].json + "" == blocks[i].json;
  }

  lemma OpenAgrees(s: State, c: Client, seen: Sighting, ev: UpEvent)
    requires Touched(ev).Some? && c.open == s.open && !c.ended && |c.blocks| == s.next
             && (s.open.Some? ==> s.open.value < s.next)
    requires c.head.Some? && (seen.first ==> seen.index == s.next)
    ensures var b := Blank(ev);
            var (s', more) := OpenCall(s, seen, b.id, b.name);
            Read(false, c, more) == Some(if seen.first then c.(blocks := c.blocks + [b], open := Some(s.next)) else c)
  {
    hide Read, Closing, Blank, Touched;
    ReadNothing(c);
    if seen.first {
      var b := Blank(ev);
      ClosingAccepted(s, c);
      ReadThen(false, c, Closing(s), ToolStart(seen.index, b.id, b.name));
    }
  }

  /** The converter's events for a call, in the tracker's terms. */
  lemma CallEventsAre(s: State, ev: UpEvent)
    requires Touched(ev).Some?
    ensures var seen, b := SightingOf(s.table, s.next, ev), Blank(ev);
            var s0 := if ev.OutputItem? then s.(toolsSeen := true) else s;
            var (s1, e1) := OpenCall(s0, seen, b.id, b.name);
            CallEvents(s, ev) ==
              (s1, e1 + if ev.ArgsFragment? || seen.deliver then [BlockJson(seen.index, Said(seen, ev))] else [])
  {
    hide Observed, Streamed, OpenCall;
  }

  lemma IndexIsKnown(s: State, c: Client, events: seq<UpEvent>, ev: UpEvent, seen: Sighting)
    requires Agrees(s, c, events) && Touched(ev).Some?
    requires (seen.first ==> seen.index == s.next)
             && (!seen.first ==> exists k :: k in s.table.keys && s.table.keys[k] == seen.index)
    ensures var blocks := if seen.first then c.blocks + [Blank(ev)] else c.blocks;
            && seen.index < |blocks| && blocks[seen.index].ToolBlock?
            && TextOf(blocks) == Spoken(events) && TextOf(Applied(c.blocks, seen, ev)) == Spoken(events)
  {
    hide Spoken, CallsSeen, TextOf, ToolsOf, Said;
    var blocks := if seen.first then c.blocks + [Blank(ev)] else c.blocks;
    BlocksSnoc(c.blocks, Blank(ev));
    assert TextOf(c.blocks) + "" == TextOf(c.blocks);
    ToolChanges(blocks, seen.index, Grown(blocks[seen.index], Said(seen, ev)));
  }

  /** The client accepts the events of a call. */
  lemma CallRead(s: State, c: Client, events: seq<UpEvent>, ev: UpEvent, seen: Sighting)
    requires Agrees(s, c, events) && Touched(ev).Some?
    requires (seen.first ==> seen.index == s.next)
             && (!seen.first ==> exists k :: k in s.table.keys && s.table.keys[k] == seen.index)
    ensures var s0 := if ev.OutputItem? then s.(toolsSeen := true) else s;
            var e1 := OpenCall(s0, seen, Blank(ev).id, Blank(ev).name).1;
            Read(false, c,
                 e1 + if ev.ArgsFragment? || seen.deliver then [BlockJson(seen.index, Said(seen, ev))] else [])
            == Some(c.(blocks := Applied(c.blocks, seen, ev), open := if seen.first then Some(s.next) else c.open))
  {
    hide Spoken, CallsSeen, TextOf, ToolsOf, Read, OpenCall;
    var s0 := if ev.OutputItem? then s.(toolsSeen := true) else s;
    var (s1, e1) := OpenCall(s0, seen, Blank(ev).id, Blank(ev).name);
    IndexIsKnown(s, c, events, ev, seen);
    OpenAgrees(s0, c, seen, ev);
    var blocks := if seen.first then c.blocks + [Blank(ev)] else c.blocks;
    if ev.ArgsFragment? || seen.deliver {
      ReadThen(false, c, e1, BlockJson(seen.index, Said(seen, ev)));
    } else {
      GrownNothing(blocks, seen.index);
      assert e1 + [] == e1;
    }
  }

  lemma CallAgrees(s: State, c: Client, events: seq<UpEvent>, ev: UpEvent)
    requires Agrees(s, c, events) && Touched(ev).Some?
    ensures var seen := SightingOf(s.table, s.next, ev);
            var (s', more) := CallEvents(s, ev);
            var c' := Read(false, c, more);
            && c'.Some? && Agrees(s', c'.value, events + [ev]) && c'.value.head == c.head
            && s'.table == seen.table && s'.next == (if seen.first then s.next + 1 else s.next)
            && c'.value.blocks == Applied(c.blocks, seen, ev)
  {
    hide Agrees, SightingOf, Read, CallEvents, Applied, Spoken, TextOf;
    var seen := SightingOf(s.table, s.next, ev);
    AnswerKeys(s.table, s.next, ev);
    CallEventsAre(s, ev);
    CallRead(s, c, events, ev, seen);
    IndexIsKnown(s, c, events, ev, seen);
    SpokenSnoc(events, ev);
    assert Spoken(events) + "" == Spoken(events);
    AppliedAgrees(s, CallEvents(s, ev).0, c, Read(false, c, CallEvents(s, ev).1).value, events, ev, seen);
  }

  lemma {:induction false} AppliedAgrees(s: State, s': State, c: Client, c': Client, events: seq<UpEvent>, ev: UpEvent,
                                         seen: Sighting)
    requires Agrees(s, c, events) && Touched(ev).Some?
    requires (forall k | k in seen.table.keys ::
              seen.table.keys[k] == seen.index || (k in s.table.keys && seen.table.keys[k] == s.table.keys[k]))
    requires (seen.first ==> seen.index == s.next)
             && (!seen.first ==> exists k :: k in s.table.keys && s.table.keys[k] == seen.index)
    requires s' == OpenCall(if ev.OutputItem? then s.(toolsSeen := true) else s, seen, Blank(ev).id, Blank(ev).name).0
    requires c' == c.(blocks := Applied(c.blocks, seen, ev), open := if seen.first then Some(s.next) else c.open)
    requires TextOf(c'.blocks) == Spoken(events + [ev])
    ensures Agrees(s', c', events + [ev])
  {
    hide Spoken, CallsSeen, TextOf, Said;
    SpokenSnoc(events, ev);
  }

  // ---- the calls, for names as upstreams give them ----

  /** The call a name stands for has the tool block of its number. */
  ghost predicate Follows(ids: map<string, string>, s: State, c: Client, events: seq<UpEvent>,
                          slots: map<string, nat>) {
    && Agrees(s, c, events) && Tracks(ids, events, s.table, slots, s.next)
    && Placed(slots, c.blocks, Seen(events)) && ToolsOf(c.blocks) == Calls(events)
  }

  lemma {:induction false} AppliedPlaces(ids: map<string, string>, blocks: seq<Block>, events: seq<UpEvent>, t: Table,
                                         slots: map<string, nat>, ev: UpEvent)
    requires Distinct(ids) && Keyed(ids, ev) && Touched(ev).Some?
    requires Tracks(ids, events, t, slots, |blocks|) && Placed(slots, blocks, Seen(events))
             && ToolsOf(blocks) == Calls(events)
    ensures var seen := SightingOf(t, |blocks|, ev);
            var blocks', slots' := Applied(blocks, seen, ev), SlotsAfter(slots, |blocks|, ev);
            && Tracks(ids, events + [ev], seen.table, slots', if seen.first then |blocks| + 1 else |blocks|)
            && Placed(slots', blocks', Seen(events + [ev])) && ToolsOf(blocks') == Calls(events + [ev])
  {
    hide Seen, Delivered, Calls, ToolsOf, Placed, SightingOf, Completes, Sent, Said, Tracks, Applied, Keyed, Distinct;
    var id, seen := Touched(ev).value, SightingOf(t, |blocks|, ev);
    TracksSeen(ids, events, t, slots, |blocks|);
    TracksEvent(ids, events, t, slots, |blocks|, ev);
    AnswerSays(t, |blocks|, events, ev, seen);
    if id in Seen(events) {
      KnownIsPlaced(blocks, events, slots, seen, ev);
    } else {
      NewIsPlaced(blocks, events, slots, seen, ev);
    }
  }

  lemma {:induction false} KnownIsPlaced(blocks: seq<Block>, events: seq<UpEvent>, slots: map<string, nat>,
                                         seen: Sighting, ev: UpEvent)
    requires Placed(slots, blocks, Seen(events)) && ToolsOf(blocks) == Calls(events)
    requires Touched(ev).Some? && Touched(ev).value in Seen(events) && Touched(ev).value in slots
    requires !seen.first && seen.index == slots[Touched(ev).value] && Said(seen, ev) == Sent(events, ev)
    ensures var blocks' := Applied(blocks, seen, ev);
            Placed(slots, blocks', Seen(events + [ev])) && ToolsOf(blocks') == Calls(events + [ev])
  {
    hide Seen, Calls, ToolsOf, Placed, Sent, Said, Grown;
    EventsSnoc(events, ev);
    CallsSnoc(events, ev);
    PlacesKnown(blocks, slots, Seen(events), Touched(ev).value, Sent(events, ev));
  }

  lemma {:induction false} NewIsPlaced(blocks: seq<Block>, events: seq<UpEvent>, slots: map<string, nat>,
                                       seen: Sighting, ev: UpEvent)
    requires Placed(slots, blocks, Seen(events)) && ToolsOf(blocks) == Calls(events)
    requires Touched(ev).Some? && Touched(ev).value !in Seen(events)
    requires seen.first && seen.index == |blocks| && Said(seen, ev) == Sent(events, ev)
    ensures var blocks' := Applied(blocks, seen, ev);
            && Placed(slots[Touched(ev).value := |blocks|], blocks', Seen(events + [ev]))
            && ToolsOf(blocks') == Calls(events + [ev])
  {
    hide Seen, Calls, ToolsOf, Placed, Sent, Said, Grown;
    EventsSnoc(events, ev);
    CallsSnoc(events, ev);
    PlacesNew(blocks, slots, Seen(events), Touched(ev).value, Blank(ev), Sent(events, ev));
  }

  lemma PlacesKnown(blocks: seq<Block>, slots: map<string, nat>, seen: seq<string>, id: string, more: string)
    requires Placed(slots, blocks, seen) && id in seen && id in slots
    ensures var p := slots[id];
            && p < |blocks| && blocks[p].ToolBlock? && Placed(slots, blocks[p := Grown(blocks[p], more)], seen)
            && exists k :: 0 <= k < |seen| && seen[k] == id && k < |ToolsOf(blocks)| && ToolsOf(blocks)[k] == blocks[p]
                           && ToolsOf(blocks[p := Grown(blocks[p], more)]) ==
                                ToolsOf(blocks)[k := Grown(blocks[p], more)]
  {
    hide Placed, ToolsOf;
    var k :| 0 <= k < |seen| && seen[k] == id;
    PlacedAt(slots, blocks, seen, k);
    PlacedArguments(slots, blocks, seen, k, Grown(blocks[slots[id]], more));
  }

  lemma {:induction false} PlacesNew(blocks: seq<Block>, slots: map<string, nat>, seen: seq<string>, id: string,
                                     b: Block, more: string)
    requires Placed(slots, blocks, seen) && id !in seen && b.ToolBlock? && b.json == ""
    ensures var full := ToolBlock(b.id, b.name, more);
            && Grown(b, more) == full && (blocks + [b])[|blocks| := full] == blocks + [full]
            && Placed(slots[id := |blocks|], blocks + [full], seen + [id])
            && ToolsOf(blocks + [full]) == ToolsOf(blocks) + [full]
  {
    hide Placed, ToolsOf;
    var full := ToolBlock(b.id, b.name, more);
    PlacedTool(slots, blocks, seen, id, full);
    assert "" + more == more;
  }

  lemma PlacedAt(slots: map<string, nat>, blocks: seq<Block>, seen: seq<string>, k: nat)
    requires Placed(slots, blocks, seen) && k < |seen|
    ensures seen[k] in slots && slots[seen[k]] < |blocks| && blocks[slots[seen[k]]].ToolBlock?
  {
  }

  lemma EventFollows(ids: map<string, string>, s: State, c: Client, events: seq<UpEvent>, slots: map<string, nat>,
                     ev: UpEvent)
    requires Follows(ids, s, c, events, slots) && Distinct(ids) && Keyed(ids, ev) && Ongoing(ev)
    ensures var step := OnEvent(s, ev);
            var c' := Read(false, c, Unheaded(step.events));
            && c'.Some? && c'.value.head == c.head && !step.done && step.err.None?
            && Follows(ids, step.state, c'.value, events + [ev], SlotsAfter(slots, s.next, ev))
  {
    hide Seen, Calls, ToolsOf, Tracks, Placed, Distinct, Agrees, Applied, SightingOf, Read, Keyed, Unheaded, OnText,
         OnItem, OnFragment;
    AgreesSize(s, c, events);
    HeadsOfStep(s, ev);
    EventsSnoc(events, ev);
    CallsSnoc(events, ev);
    if Touched(ev).Some? {
      CallAgrees(s, c, events, ev);
      AppliedPlaces(ids, c.blocks, events, s.table, slots, ev);
    } else if ev.OutputText? {
      TextAgrees(s, c, events, ev.delta);
      TracksOther(ids, events, s.table, slots, s.next, OnText(s, ev.delta).0.next, ev);
      TextPlaces(s, c, events, slots, Seen(events), ev.delta);
    } else {
      SilentEvent(s, ev);
      ReadNothing(c);
      AgreesSilently(s, c, events, ev, OnEvent(s, ev).state);
      TracksOther(ids, events, s.table, slots, s.next, s.next, ev);
    }
  }

  /** Events other than text and calls send no block events. */
  lemma SilentEvent(s: State, ev: UpEvent)
    requires Ongoing(ev) && Touched(ev).None? && !ev.OutputText?
    ensures var step := OnEvent(s, ev);
            && Unheaded(step.events) == [] && !step.done && step.err.None?
            && step.state == s.(id := step.state.id, model := step.state.model)
  {
    if ev.Created? {
      var e := OnEvent(s, ev).events;
      assert e[..0] == [];
    }
  }

  lemma HeadsOfStep(s: State, ev: UpEvent)
    ensures !ev.Created? ==> Unheaded(OnEvent(s, ev).events) == OnEvent(s, ev).events
  {
    if !ev.Created? { NothingToDrop(OnEvent(s, ev).events); }
  }

  lemma ReadNothing(c: Client)
    ensures Read(false, c, []) == Some(c)
  {
  }

  lemma AgreesSize(s: State, c: Client, events: seq<UpEvent>)
    requires Agrees(s, c, events)
    ensures |c.blocks| == s.next && !c.ended && c.open == s.open && c.final.None? && c.head.Some?
    ensures s.open.Some? ==> s.open.value < s.next
    ensures TextOf(c.blocks) == Spoken(events) && (s.toolsSeen <==> CallsSeen(events))
    ensures s.textOpen ==>
              s.textIndex >= 0 && s.open == Some(s.textIndex) && s.textIndex == |c.blocks| - 1
              && c.blocks[s.textIndex].TextBlock?
  {
  }

  lemma AgreesSilently(s: State, c: Client, events: seq<UpEvent>, ev: UpEvent, s': State)
    requires Agrees(s, c, events) && !ev.OutputText? && Touched(ev).None? && s' == s.(id := s'.id, model := s'.model)
    ensures Agrees(s', c, events + [ev])
  {
    SpokenSnoc(events, ev);
    assert Spoken(events) + "" == Spoken(events);
  }

  lemma {:induction false} TextPlaces(s: State, c: Client, events: seq<UpEvent>, slots: map<string, nat>,
                                      seen: seq<string>, delta: string)
    requires Agrees(s, c, events) && Placed(slots, c.blocks, seen)
    ensures s.textOpen ==>
              && 0 <= s.textIndex < |c.blocks| && c.blocks[s.textIndex].TextBlock?
              && Placed(slots, c.blocks[s.textIndex := TextBlock(c.blocks[s.textIndex].text + delta)], seen)
    ensures Placed(slots, c.blocks + [TextBlock(delta)], seen)
  {
    hide Placed;
    AgreesSize(s, c, events);
    PlacedText(slots, c.blocks, seen, delta);
    if s.textOpen { PlacedMoreText(slots, c.blocks, seen, delta); }
  }

  // ---- whole streams ----

  /** What comes before the first terminal event or failure. */
  predicate Ongoing(ev: UpEvent) {
    !ev.Terminal? && !ev.Failed?
  }

  function Run(events: seq<UpEvent>): (State, seq<ClaudeEvent>) {
    if events == [] then (Initial(), [])
    else
      var (s1, e1) := Run(events[..|events| - 1]);
      var step := OnEvent(s1, events[|events| - 1]);
      (step.state, e1 + step.events)
  }

  lemma RunSnoc(events: seq<UpEvent>, ev: UpEvent)
    ensures var (s, e) := Run(events);
            Run(events + [ev]) == (OnEvent(s, ev).state, e + OnEvent(s, ev).events)
  {
    assert (events + [ev])[..|events|] == events;
  }

  /** A client that has had its message_start has read the blocks so far. */
  ghost predicate BlocksRead(s: State, sent: seq<ClaudeEvent>, events: seq<UpEvent>) {
    var c := Read(false, STARTED, Unheaded(sent));
    c.Some? && Agrees(s, c.value, events)
  }

  lemma EventAgrees(s: State, c: Client, events: seq<UpEvent>, ev: UpEvent)
    requires Agrees(s, c, events) && Ongoing(ev)
    ensures var c' := Read(false, c, Unheaded(OnEvent(s, ev).events));
            c'.Some? && c'.value.head == c.head && Agrees(OnEvent(s, ev).state, c'.value, events + [ev])
  {
    hide Agrees, Read, OnText, OnItem, OnFragment, Unheaded;
    HeadsOfStep(s, ev);
    if Touched(ev).Some? {
      CallAgrees(s, c, events, ev);
    } else if ev.OutputText? {
      TextAgrees(s, c, events, ev.delta);
    } else {
      SilentEvent(s, ev);
      ReadNothing(c);
      AgreesSilently(s, c, events, ev, OnEvent(s, ev).state);
    }
  }

  lemma NothingRead()
    ensures BlocksRead(Initial(), [], [])
  {
  }

  lemma {:induction false} BlocksAreRead(events: seq<UpEvent>)
    requires forall k | 0 <= k < |events| :: Ongoing(events[k])
    ensures BlocksRead(Run(events).0, Run(events).1, events)
    decreases |events|
  {
    hide Agrees, OnEvent, Read, Unheaded;
    if events == [] {
      NothingRead();
    } else {
      var init, ev := events[..|events| - 1], events[|events| - 1];
      BlocksAreRead(init);
      var (s, sent) := Run(init);
      EventAgrees(s, Read(false, STARTED, Unheaded(sent)).value, init, ev);
      UnheadedAppend(sent, OnEvent(s, ev).events);
      ReadAppend(false, STARTED, Unheaded(sent), Unheaded(OnEvent(s, ev).events));
      assert init + [ev] == events;
    }
  }

  /** The block discipline, whatever the upstream sends under whatever names, at
      every moment up to its first terminal event or failure: the client accepts
      all blocks, so at most one is open and indexes are consecutive; the converter
      knows which one is open, and when it takes text to be open, the open block is
      a text block and is the text index. */
  lemma EveryPrefixIsAccepted(events: seq<UpEvent>)
    requires forall k | 0 <= k < |events| :: Ongoing(events[k])
    ensures var (s, sent) := Run(events);
            var c := Read(false, STARTED, Unheaded(sent));
            && c.Some? && !c.value.ended && c.value.final == None
            && |c.value.blocks| == s.next && c.value.open == s.open && TextOf(c.value.blocks) == Spoken(events)
            && (s.textOpen ==> s.textIndex >= 0 && c.value.open == Some(s.textIndex) && s.textIndex < |c.value.blocks|
                               && c.value.blocks[s.textIndex].TextBlock?)
  {
    hide Agrees, Run, Read, Unheaded;
    BlocksAreRead(events);
    var (s, sent) := Run(events);
    AgreesSize(s, Read(false, STARTED, Unheaded(sent)).value, events);
  }

  // ---- message_start ----

  /** The events that make the converter send something. */
  predicate Speaks(ev: UpEvent) {
    ev.Created? || ev.OutputText? || ev.Terminal? || Touched(ev).Some?
  }

  /** response.created comes before everything that is sent on, and once. */
  predicate CreatedFirst(events: seq<UpEvent>) {
    forall k | 0 <= k < |events| && Speaks(events[k]) :: events[k].Created? <==> Quiet(events[..k])
  }

  predicate Quiet(events: seq<UpEvent>) {
    forall k | 0 <= k < |events| :: !Speaks(events[k])
  }

  /** The identity in the first response.created. */
  function HeadOf(events: seq<UpEvent>): Option<Head> {
    if events == [] then None
    else
      var before, last := HeadOf(events[..|events| - 1]), events[|events| - 1];
      if before.Some? then before
      else if last.Created? then Some(Head(if last.id != "" then last.id else "opencode-go", last.model, 0))
      else None
  }

  lemma CreatedFirstSnoc(events: seq<UpEvent>, ev: UpEvent)
    ensures CreatedFirst(events + [ev]) <==> CreatedFirst(events) && (Speaks(ev) ==> (ev.Created? <==> Quiet(events)))
    ensures Quiet(events + [ev]) <==> Quiet(events) && !Speaks(ev)
    ensures HeadOf(events + [ev]) == if HeadOf(events).Some? || !ev.Created? then HeadOf(events)
                                     else Some(Head(if ev.id != "" then ev.id else "opencode-go", ev.model, 0))
  {
    hide Speaks, Quiet;
    var all := events + [ev];
    assert all[..|events|] == events && all[|events|] == ev;
    forall k | 0 <= k < |events| ensures all[k] == events[k] && all[..k] == events[..k] {
    }
    assert Quiet(all) <==> Quiet(events) && !Speaks(ev) by { QuietSnoc(events, ev); }
  }

  lemma QuietSnoc(events: seq<UpEvent>, ev: UpEvent)
    ensures Quiet(events + [ev]) <==> Quiet(events) && !Speaks(ev)
  {
    hide Speaks;
    var all := events + [ev];
    assert all[|events|] == ev && forall k | 0 <= k < |events| :: all[k] == events[k];
  }

  /** An event speaks exactly when it is the first to, or may do so later; only
      response.created sends message_start. */
  lemma StepSpeaks(s: State, ev: UpEvent)
    ensures var sent := OnEvent(s, ev).events;
            && (!Speaks(ev) ==> sent == [] && OnEvent(s, ev).state == s)
            && (Speaks(ev) && s.table.keys == map[] ==> sent != [])
            && (ev.Created? ==> sent == [MessageStart(Captured(s.id, ev.id), Captured(s.model, ev.model), 0)])
            && (!ev.Created? ==> forall k | 0 <= k < |sent| :: !sent[k].MessageStart?)
  {
    if Touched(ev).Some? && s.table.keys == map[] {
      CallEventsAre(s, ev);
      FirstCallSpeaks(s, ev);
    }
  }

  lemma FirstCallSpeaks(s: State, ev: UpEvent)
    requires Touched(ev).Some? && s.table.keys == map[]
    ensures SightingOf(s.table, s.next, ev).first && CallEvents(s, ev).1 != []
            && OnEvent(s, ev).events == CallEvents(s, ev).1
  {
    CallEventsAre(s, ev);
    var seen, b := SightingOf(s.table, s.next, ev), Blank(ev);
    var s0 := if ev.OutputItem? then s.(toolsSeen := true) else s;
    var e1 := OpenCall(s0, seen, b.id, b.name).1;
    assert seen.first;
    assert e1[|e1| - 1] == ToolStart(seen.index, b.id, b.name);
    assert CallEvents(s, ev).1[|e1| - 1] == e1[|e1| - 1];
  }

  lemma {:induction false} EnvelopedAppend(a: seq<ClaudeEvent>, b: seq<ClaudeEvent>)
    requires forall k | 0 <= k < |b| :: !b[k].MessageStart?
    ensures a != [] ==> (Enveloped(a + b) <==> Enveloped(a))
    ensures a == [] && b != [] ==> !Enveloped(a + b)
  {
    var all := a + b;
    assert forall k | 0 <= k < |a| :: all[k] == a[k];
    forall k | |a| <= k < |all| ensures !all[k].MessageStart? {
      assert all[k] == b[k - |a|];
    }
    if a == [] && b != [] { assert !all[0].MessageStart?; }
  }

  /** message_start comes first and once exactly when response.created does. */
  lemma {:induction false} EnvelopeIff(events: seq<UpEvent>)
    ensures var (s, sent) := Run(events);
            && (Enveloped(sent) <==> CreatedFirst(events)) && (sent == [] <==> Quiet(events))
            && (Quiet(events) ==> s == Initial())
            && (sent != [] && Enveloped(sent) ==>
                HeadOf(events) == Some(Head(sent[0].id, sent[0].model, sent[0].input)))
            && (Quiet(events) ==> HeadOf(events) == None)
    decreases |events|
  {
    if events != [] {
      hide OnEvent, Speaks, CreatedFirst, Quiet, Enveloped, HeadOf;
      var init, ev := events[..|events| - 1], events[|events| - 1];
      EnvelopeIff(init);
      var (s, sent) := Run(init);
      var more := OnEvent(s, ev).events;
      assert init + [ev] == events;
      CreatedFirstSnoc(init, ev);
      StepSpeaks(s, ev);
      if ev.Created? {
        CreatedSpeaks(ev);
        EnvelopedSnoc(sent, more[0]);
        assert sent + more == sent + [more[0]];
      } else {
        EnvelopedAppend(sent, more);
      }
    } else {
      NothingIsEnveloped();
    }
  }

  lemma CreatedSpeaks(ev: UpEvent)
    requires ev.Created?
    ensures Speaks(ev)
  {
  }

  // ---- the terminal ----

  lemma TerminalIsRead(s: State, c: Client, events: seq<UpEvent>, before: seq<ClaudeEvent>,
                       incomplete: bool, input: int, output: int, d: UsageDetails)
    requires Read(false, STARTED, before) == Some(c) && Agrees(s, c, events)
    ensures var more := OnTerminal(s, incomplete, input, output, d).1;
            && Unheaded(more) == more
            && Read(false, STARTED, before + more) ==
               Some(c.(open := None, ended := true,
                       final := Some(Final(StopReason(s, incomplete), ClaudeUsageOf(input, output, d)))))
  {
    hide Read, StopReason, ClaudeUsageOf, Unheaded, Agrees, Closing;
    AgreesSize(s, c, events);
    ClosingAccepted(s, c);
    var delta := MessageDelta(StopReason(s, incomplete), ClaudeUsageOf(input, output, d));
    ReadAppend(false, STARTED, before, Closing(s));
    ReadThen(false, STARTED, before + Closing(s), delta);
    ReadThen(false, STARTED, before + Closing(s) + [delta], MessageStop);
    assert before + Closing(s) + [delta] + [MessageStop] == before + (Closing(s) + [delta, MessageStop]);
    TerminalHasNoHead(s, incomplete, input, output, d);
  }

  lemma TerminalHasNoHead(s: State, incomplete: bool, input: int, output: int, d: UsageDetails)
    ensures var more := OnTerminal(s, incomplete, input, output, d).1; Unheaded(more) == more
  {
    hide Unheaded, StopReason, ClaudeUsageOf;
    NothingToDrop(OnTerminal(s, incomplete, input, output, d).1);
  }

  lemma TerminalEvent(s: State, incomplete: bool, input: int, output: int, d: UsageDetails)
    ensures OnEvent(s, Terminal(incomplete, input, output, d)).events == OnTerminal(s, incomplete, input, output, d).1
  {
  }

  /** The input tokens that were neither read from nor written to the cache, never
      below zero. */
  function Uncached(input: int, d: UsageDetails): int {
    var read := if d.cached.Some? then d.cached.value else 0;
    var write := if d.cacheWrite.Some? then d.cacheWrite.value else 0;
    if input < read + write then 0 else input - (read + write)
  }

  /** A stream up to its first terminal event, whatever came before it: the blocks
      are accepted and all closed before message_delta and message_stop; the text
      and the terminal are read.  The whole stream is accepted, message_start
      included, if and only if response.created came first and once. */
  lemma {:induction false} EveryStreamIsAccepted(events: seq<UpEvent>, incomplete: bool, input: int, output: int,
                                                 d: UsageDetails)
    requires forall k | 0 <= k < |events| :: Ongoing(events[k])
    ensures var all := events + [Terminal(incomplete, input, output, d)];
            var sent := Run(all).1;
            var blocks, c := Read(false, STARTED, Unheaded(sent)), Read(false, NEW_CLIENT, sent);
            && blocks.Some? && blocks.value.ended && blocks.value.open == None
            && TextOf(blocks.value.blocks) == Spoken(events)
            && blocks.value.final ==
                 Some(Final(if CallsSeen(events) then "tool_use" else if incomplete then "max_tokens" else "end_turn",
                            ClaudeUsage(Uncached(input, d), output, d.cached, d.cacheWrite)))
            && (c.Some? <==> CreatedFirst(all))
            && (c.Some? ==> c.value == blocks.value.(head := HeadOf(events)) && HeadOf(events).Some?)
  {
    hide Agrees, Read, Run, OnEvent, OnTerminal, Spoken, CallsSeen, TextOf, Unheaded, Enveloped, CreatedFirst,
         HeadOf, Quiet, Speaks;
    var terminal := Terminal(incomplete, input, output, d);
    var all := events + [terminal];
    BlocksAreRead(events);
    var (s, sent) := Run(events);
    var c := Read(false, STARTED, Unheaded(sent)).value;
    AgreesSize(s, c, events);
    RunSnoc(events, terminal);
    TerminalEvent(s, incomplete, input, output, d);
    var more := OnTerminal(s, incomplete, input, output, d).1;
    TerminalIsRead(s, c, events, Unheaded(sent), incomplete, input, output, d);
    UnheadedAppend(sent, more);
    EnvelopeAndBlocks(false, sent + more);
    EnvelopeIff(all);
    CreatedFirstSnoc(events, terminal);
    TerminalSpeaks(terminal);
  }

  lemma TerminalSpeaks(ev: UpEvent)
    requires ev.Terminal?
    ensures Speaks(ev)
  {
  }

  // ---- the calls ----

  ghost predicate BodyFollowed(ids: map<string, string>, s: State, sent: seq<ClaudeEvent>, events: seq<UpEvent>,
                               slots: map<string, nat>) {
    var c := Read(false, STARTED, Unheaded(sent));
    c.Some? && Follows(ids, s, c.value, events, slots)
  }

  lemma {:induction false} BodyIsFollowed(ids: map<string, string>, events: seq<UpEvent>)
    returns (slots: map<string, nat>)
    requires Distinct(ids) && forall k | 0 <= k < |events| :: Ongoing(events[k]) && Keyed(ids, events[k])
    ensures BodyFollowed(ids, Run(events).0, Run(events).1, events, slots)
    decreases |events|
  {
    hide Agrees, OnEvent, Read, Tracks, Placed, Calls, Seen, Unheaded;
    if events == [] {
      slots := map[];
      StartIsFollowed(ids);
      NothingRead();
    } else {
      var init, ev := events[..|events| - 1], events[|events| - 1];
      var before := BodyIsFollowed(ids, init);
      var (s, sent) := Run(init);
      var c := Read(false, STARTED, Unheaded(sent)).value;
      slots := SlotsAfter(before, s.next, ev);
      EventFollows(ids, s, c, init, before, ev);
      UnheadedAppend(sent, OnEvent(s, ev).events);
      ReadAppend(false, STARTED, Unheaded(sent), Unheaded(OnEvent(s, ev).events));
      assert init + [ev] == events;
    }
  }

  lemma StartIsFollowed(ids: map<string, string>)
    ensures var c := Read(false, STARTED, Unheaded([]));
            && c.Some? && Tracks(ids, [], Initial().table, map[], Initial().next)
            && Placed(map[], c.value.blocks, Seen([])) && ToolsOf(c.value.blocks) == Calls([])
  {
  }

  /** When every call has its own pair of names, each call is one tool block, in
      order of first appearance, with the identity of its first event and the
      arguments the upstream sent for it. */
  lemma CallsAreRead(ids: map<string, string>, events: seq<UpEvent>, incomplete: bool, input: int, output: int,
                     d: UsageDetails)
    requires Distinct(ids) && forall k | 0 <= k < |events| :: Ongoing(events[k]) && Keyed(ids, events[k])
    ensures var c := Read(false, STARTED, Unheaded(Run(events + [Terminal(incomplete, input, output, d)]).1));
            c.Some? && ToolsOf(c.value.blocks) == Calls(events)
  {
    hide Agrees, Read, Run, ClaudeUsageOf, Tracks, Placed, Calls, Seen, ToolsOf, Distinct, Keyed, OnEvent, OnTerminal,
         Unheaded;
    var slots := BodyIsFollowed(ids, events);
    var (s, sent) := Run(events);
    var c := Read(false, STARTED, Unheaded(sent)).value;
    RunSnoc(events, Terminal(incomplete, input, output, d));
    TerminalEvent(s, incomplete, input, output, d);
    TerminalIsRead(s, c, events, Unheaded(sent), incomplete, input, output, d);
    UnheadedAppend(sent, OnTerminal(s, incomplete, input, output, d).1);
  }

  // ---- behind the terminal ----

  /** The network's cutting can show: text behind the terminal event is converted if
      it came in the same chunk, though the message has ended, and is not read if it
      came in the next. */
  lemma {:induction false} TextBehindTheTerminal(decode: Decoder, s: State, end: Framing.Printed,
                                                 late: Framing.Printed, delta: string)
    requires Framing.OneLine(end) && Framing.OneLine(late)
    requires decode(FrameOf(end)).Ok? && decode(FrameOf(end)).value.Terminal?
             && decode(FrameOf(late)) == Ok(OutputText(delta))
    ensures var h, r := Lines(false, Frames(decode)), Reader(Framing.EMPTY, s);
            var a, b := Framing.SSEEvent(end), Framing.SSEEvent(late);
            var together, apart := FeedAll(h, false, r, "", [a + b]).events, FeedAll(h, false, r, "", [a, b]).events;
            && apart != [] && apart[|apart| - 1] == MessageStop && apart < together
  {
    hide FeedAll, Framing.SSEEvent, TrimSpace, TrimCR;
    var d := Frames(decode);
    var t := decode(FrameOf(end)).value;
    var last := d(s, FrameOf(end));
    assert last == OnFrame(decode, s, FrameOf(end));
    TerminalEvent(s, t.incomplete, t.input, t.output, t.details);
    var more := d(last.state, FrameOf(late));
    assert more == OnFrame(decode, last.state, FrameOf(late));
    assert more.events != [] by { assert more.events[|more.events| - 1].BlockText?; }
    LateFrameShows(d, s, end, late);
  }
}
