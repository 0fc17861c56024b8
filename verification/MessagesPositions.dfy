/** Where the items of a Messages stream are announced, and where the completed
    response has them: announced in order of arrival, rendered in order of the
    upstream's block indexes. */
module MessagesPositions {
  import opened Basics
  import opened ResponseTools
  import opened Wire
  import opened ResponsesTurn
  import opened MessagesToResponses
  import Meaning = MessagesMeaning
  import Pieces = MessagesPieces
  import M = MessagesEvents

  // ---- the order of a stream, read off its events alone ----

  /** The block index behind each announced item, in order of announcement: those of
      the tool_use blocks, and for the message the lowest of all text blocks; where
      the message is, and under which id it was announced; the current id; all
      indexes started so far. */
  datatype Order = Order(places: seq<int>, text: Option<nat>, textId: string, id: string, started: set<int>)

  function OrderStart(o: Order, index: int, kind: string): Order {
    if kind == "text" && o.text.None? then
      o.(places := o.places + [index], text := Some(|o.places|), textId := o.id, started := o.started + {index})
    else if kind == "text" && o.text.value < |o.places| then
      var low := o.places[o.text.value];
      o.(places := o.places[o.text.value := if index < low then index else low], started := o.started + {index})
    else if kind == "tool_use" then o.(places := o.places + [index], started := o.started + {index})
    else o.(started := o.started + {index})
  }

  function OrderMore(o: Order, ev: M.Event): Order {
    match ev
    case MessageStart(id, _, _) => o.(id := id)
    case BlockStart(index, kind, _, _) => OrderStart(o, index, kind)
    case _ => o
  }

  function OrderOf(events: seq<M.Event>): Order {
    if events == [] then Order([], None, "", "", {})
    else OrderMore(OrderOf(events[..|events| - 1]), events[|events| - 1])
  }

  /** Each block index is started once; message_stop, which ends a stream, is not
      among the events. */
  predicate FreshStarts(events: seq<M.Event>) {
    forall k | 0 <= k < |events| ::
      !events[k].MessageStop? && (events[k].BlockStart? ==> events[k].index !in OrderOf(events[..k]).started)
  }

  /** The ids of the calls, in order of arrival. */
  function CallIds(events: seq<M.Event>): seq<string> {
    if events == [] then []
    else
      CallIds(events[..|events| - 1]) +
      match events[|events| - 1]
      case BlockStart(_, kind, id, _) => (if kind == "tool_use" then [id] else [])
      case _ => []
  }

  // ---- which blocks take a place in the output ----

  predicate IsText(blocks: map<int, BlockState>, i: int) {
    i in blocks && blocks[i].kind == "text"
  }

  predicate IsTool(blocks: map<int, BlockState>, i: int) {
    i in blocks && blocks[i].kind == "tool_use"
  }

  /** The tool_use blocks, and the text block with the lowest index. */
  ghost predicate TakesPlace(blocks: map<int, BlockState>, i: int) {
    IsTool(blocks, i) || (IsText(blocks, i) && forall j | IsText(blocks, j) :: i <= j)
  }

  ghost function PlaceSet(blocks: map<int, BlockState>): set<int> {
    set i | i in blocks && TakesPlace(blocks, i)
  }

  /** The blocks that take a place among those of an order: tools, and the first text. */
  function Slots(blocks: map<int, BlockState>, order: seq<int>): seq<int>
    requires Meaning.InMap(blocks, order)
  {
    if order == [] then []
    else
      var before, i := Slots(blocks, order[..|order| - 1]), order[|order| - 1];
      if blocks[i].kind == "text" then (if HasText(blocks, order[..|order| - 1]) then before else before + [i])
      else if blocks[i].kind == "tool_use" then before + [i]
      else before
  }

  predicate HasText(blocks: map<int, BlockState>, order: seq<int>)
    requires Meaning.InMap(blocks, order)
  {
    exists k | 0 <= k < |order| :: blocks[order[k]].kind == "text"
  }

  /** What the assembler puts in the place of a block. */
  function Filling(names: ToolNames, b: BlockState): Option<OutItem> {
    if b.kind == "text" then None else Some(Call(RenderedCall(names, b.id, b.name, DefaultArgs(b.args))))
  }

  lemma {:induction false} AssembledInSlots(names: ToolNames, blocks: map<int, BlockState>, order: seq<int>)
    requires Meaning.InMap(blocks, order)
    ensures var a, slots := Assemble(names, blocks, order), Slots(blocks, order);
            && |a.items| == |slots| && (a.slot >= 0 <==> HasText(blocks, order))
            && forall k | 0 <= k < |slots| :: slots[k] in blocks && a.items[k] == Filling(names, blocks[slots[k]])
    decreases |order|
  {
    if order != [] {
      hide RenderedCall, DefaultArgs;
      var init := order[..|order| - 1];
      AssembledInSlots(names, blocks, init);
      if HasText(blocks, init) {
        var k :| 0 <= k < |init| && blocks[init[k]].kind == "text";
        assert order[k] == init[k];
      }
      if HasText(blocks, order) {
        var k :| 0 <= k < |order| && blocks[order[k]].kind == "text";
        if k < |init| { assert init[k] == order[k]; }
      }
    }
  }

  /** Among the blocks of an order: a tool, or the lowest text. */
  ghost predicate Chosen(blocks: map<int, BlockState>, order: seq<int>, i: int)
    requires Meaning.InMap(blocks, order)
  {
    && i in order && i in blocks
    && (blocks[i].kind == "tool_use"
        || (blocks[i].kind == "text" && forall j | j in order && IsText(blocks, j) :: i <= j))
  }

  lemma HasTextMeans(blocks: map<int, BlockState>, order: seq<int>)
    requires Meaning.InMap(blocks, order)
    ensures HasText(blocks, order) <==> exists j :: j in order && IsText(blocks, j)
  {
    if HasText(blocks, order) {
      var k :| 0 <= k < |order| && blocks[order[k]].kind == "text";
      assert order[k] in order && IsText(blocks, order[k]);
    }
    if j :| j in order && IsText(blocks, j) {
      var k :| 0 <= k < |order| && order[k] == j;
      assert blocks[order[k]].kind == "text";
    }
  }

  lemma ChosenSnoc(blocks: map<int, BlockState>, init: seq<int>, last: int, i: int)
    requires Meaning.InMap(blocks, init + [last]) && Meaning.InMap(blocks, init) && last in blocks
    requires forall j | j in init :: j < last
    ensures Chosen(blocks, init + [last], i) <==>
            Chosen(blocks, init, i) ||
            (i == last && (blocks[last].kind == "tool_use" || (blocks[last].kind == "text" && !HasText(blocks, init))))
  {
    HasTextMeans(blocks, init);
    hide HasText;
    assert forall j :: j in init + [last] <==> j in init || j == last;
  }

  /** The blocks of an increasing order that take a place, in that order. */
  lemma {:induction false} SlotsAre(blocks: map<int, BlockState>, order: seq<int>)
    requires Meaning.InMap(blocks, order) && Increasing(order)
    ensures Increasing(Slots(blocks, order)) && forall i :: i in Slots(blocks, order) <==> Chosen(blocks, order, i)
    decreases |order|
  {
    if order != [] {
      hide Chosen, HasText;
      var init, last := order[..|order| - 1], order[|order| - 1];
      SlotsAre(blocks, init);
      assert order == init + [last];
      forall j | j in init ensures j < last { var k :| 0 <= k < |init| && init[k] == j; assert order[k] == j; }
      forall i ensures Chosen(blocks, order, i) <==>
            Chosen(blocks, init, i) ||
            (i == last
             && (blocks[last].kind == "tool_use" || (blocks[last].kind == "text" && !HasText(blocks, init)))) {
        ChosenSnoc(blocks, init, last, i);
      }
      var before := Slots(blocks, init);
      forall i | i in before ensures i < last { ChosenIsIn(blocks, init, i); }
      assert forall i :: i in before + [last] <==> i in before || i == last;
      SnocIncreasing(before, last);
    } else {
      NothingChosen(blocks);
    }
  }

  lemma ChosenIsIn(blocks: map<int, BlockState>, order: seq<int>, i: int)
    requires Meaning.InMap(blocks, order) && Chosen(blocks, order, i)
    ensures i in order
  {
  }

  lemma NothingChosen(blocks: map<int, BlockState>)
    ensures forall i :: !Chosen(blocks, [], i)
  {
  }

  lemma SnocIncreasing(order: seq<int>, last: int)
    requires Increasing(order) && forall j | j in order :: j < last
    ensures Increasing(order + [last])
  {
    forall k | 0 <= k < |order| ensures order[k] < last { assert order[k] in order; }
  }

  lemma ListsMembers(order: seq<int>, keys: set<int>)
    ensures Lists(order, keys) <==> forall i :: i in order <==> i in keys
  {
    if Lists(order, keys) {
      forall i | i in order ensures i in keys { var k :| 0 <= k < |order| && order[k] == i; }
    }
    if forall i :: i in order <==> i in keys {
      forall k | 0 <= k < |order| ensures order[k] in keys { assert order[k] in order; }
      forall i | i in keys ensures exists k :: 0 <= k < |order| && order[k] == i { assert i in order; }
    }
  }

  lemma ChosenOfAll(blocks: map<int, BlockState>, order: seq<int>, i: int)
    requires Meaning.InMap(blocks, order) && forall j :: j in order <==> j in blocks
    ensures Chosen(blocks, order, i) <==> i in PlaceSet(blocks)
  {
  }

  /** The places of the output are those of the blocks that take one, by index. */
  lemma {:induction false} OutputPlaces(names: ToolNames, s: State) returns (slots: seq<int>)
    ensures Increasing(slots) && Lists(slots, PlaceSet(s.blocks))
    ensures |OutputOf(names, s)| == |slots|
    ensures forall k | 0 <= k < |slots| :: slots[k] in s.blocks && Fills(names, s, slots[k], OutputOf(names, s)[k])
  {
    var order := Sorted(s.blocks.Keys);
    SortedIsSorted(s.blocks.Keys);
    assert Meaning.InMap(s.blocks, order);
    hide Sorted, Increasing, Slots, Lists, Filling, PlaceSet, Chosen;
    AssembledInSlots(names, s.blocks, order);
    hide Assemble;
    SlotsAre(s.blocks, order);
    slots := Slots(s.blocks, order);
    ListsMembers(order, s.blocks.Keys);
    forall i ensures i in slots <==> i in PlaceSet(s.blocks) { ChosenOfAll(s.blocks, order, i); }
    ListsMembers(slots, PlaceSet(s.blocks));
    forall k | 0 <= k < |slots| ensures Fills(names, s, slots[k], OutputOf(names, s)[k]) {
      FillingFills(names, s, slots[k], Assemble(names, s.blocks, order), k);
    }
  }

  /** The item rendered for a block. */
  predicate Fills(names: ToolNames, s: State, i: int, item: OutItem) {
    && i in s.blocks
    && if s.blocks[i].kind == "text" then item.Message? && item.id == s.msgId
       else item == Call(RenderedCall(names, s.blocks[i].id, s.blocks[i].name, DefaultArgs(s.blocks[i].args)))
  }

  lemma FillingFills(names: ToolNames, s: State, i: int, a: Assembly, k: nat)
    requires i in s.blocks && k < |a.items| && a.items[k] == Filling(names, s.blocks[i])
    ensures Fills(names, s, i, Filled(a, s.msgId)[k])
  {
  }

  // ---- the converter keeps to the order ----

  /** What was announced for a block. */
  predicate Announces(names: ToolNames, blocks: map<int, BlockState>, textId: string, i: int, item: OutItem) {
    && i in blocks
    && item == if blocks[i].kind == "text" then Message(textId, [])
               else Call(RestoreCall(names, FunctionCall(blocks[i].id, blocks[i].name, "")))
  }

  ghost predicate Shaped(blocks: map<int, BlockState>, o: Order) {
    && o.started == blocks.Keys && Lists(o.places, PlaceSet(blocks)) && (o.text.Some? ==> o.text.value < |o.places|)
    && (o.text.None? ==> forall i :: !IsText(blocks, i))
    && (forall k | 0 <= k < |o.places| ::
        o.places[k] in blocks && (blocks[o.places[k]].kind == "text" <==> o.text == Some(k)))
  }

  ghost predicate Keeps(names: ToolNames, s: State, o: Order, announced: seq<(int, OutItem)>) {
    && s.msgId == o.id && s.outCount == |o.places| == |announced|
    && s.msgIdx == (if o.text.None? then -1 else o.text.value)
    && Shaped(s.blocks, o)
    && forall k | 0 <= k < |announced| ::
         announced[k].0 == k && Announces(names, s.blocks, o.textId, o.places[k], announced[k].1)
  }

  lemma PlaceSetHas(blocks: map<int, BlockState>, i: int)
    ensures i in PlaceSet(blocks) <==> TakesPlace(blocks, i)
  {
  }

  /** Blocks that keep their kinds keep their places. */
  lemma SamePlaces(blocks: map<int, BlockState>, blocks': map<int, BlockState>)
    requires blocks'.Keys == blocks.Keys && forall i | i in blocks :: blocks'[i].kind == blocks[i].kind
    ensures PlaceSet(blocks') == PlaceSet(blocks)
  {
    assert forall i :: IsText(blocks', i) <==> IsText(blocks, i);
  }

  lemma StartShaped(blocks: map<int, BlockState>, o: Order, index: int, b: BlockState)
    requires Shaped(blocks, o) && index !in blocks
    ensures Shaped(blocks[index := b], OrderStart(o, index, b.kind))
  {
    var blocks', o' := blocks[index := b], OrderStart(o, index, b.kind);
    hide Lists;
    ListsMembers(o.places, PlaceSet(blocks));
    assert blocks'.Keys == blocks.Keys + {index};
    forall i ensures i in o'.places <==> i in PlaceSet(blocks') {
      StartPlaces(blocks, o, index, b, i);
    }
    ListsMembers(o'.places, PlaceSet(blocks'));
    hide PlaceSet;
    assert forall j :: IsText(blocks', j) <==> IsText(blocks, j) || (j == index && b.kind == "text");
    forall k | 0 <= k < |o'.places|
      ensures o'.places[k] in blocks' && (blocks'[o'.places[k]].kind == "text" <==> o'.text == Some(k))
    {
      if k < |o.places| { assert o.places[k] in blocks; }
    }
  }

  lemma StartPlaces(blocks: map<int, BlockState>, o: Order, index: int, b: BlockState, i: int)
    requires Shaped(blocks, o) && index !in blocks && (i in o.places <==> i in PlaceSet(blocks))
    ensures i in OrderStart(o, index, b.kind).places <==> i in PlaceSet(blocks[index := b])
  {
    hide Lists;
    var blocks' := blocks[index := b];
    PlaceSetHas(blocks, i);
    PlaceSetHas(blocks', i);
    hide PlaceSet;
    assert forall j :: IsText(blocks', j) <==> IsText(blocks, j) || (j == index && b.kind == "text");
    if b.kind == "text" && o.text.Some? {
      LowestText(blocks, o);
      var low := o.places[o.text.value];
      var newLow := if index < low then index else low;
      UpdatedMembers(o.places, o.text.value, newLow, i);
      assert IsText(blocks', newLow) && forall j | IsText(blocks', j) :: newLow <= j;
      assert TakesPlace(blocks', i) <==> IsTool(blocks, i) || i == newLow;
      assert TakesPlace(blocks, i) <==> IsTool(blocks, i) || i == low;
    }
  }

  /** The message's place is that of the lowest text block, and of no other. */
  lemma LowestText(blocks: map<int, BlockState>, o: Order)
    requires Shaped(blocks, o) && o.text.Some?
    ensures var low := o.places[o.text.value];
            && IsText(blocks, low) && (forall j | IsText(blocks, j) :: low <= j)
            && forall k | 0 <= k < |o.places| && k != o.text.value :: o.places[k] != low
  {
    var low := o.places[o.text.value];
    assert low in PlaceSet(blocks);
  }

  lemma UpdatedMembers(places: seq<int>, t: nat, index: int, i: int)
    requires t < |places| && forall k | 0 <= k < |places| && k != t :: places[k] != places[t]
    ensures i in places[t := index] <==> i == index || (i in places && i != places[t])
  {
    if i in places && i != places[t] {
      var k :| 0 <= k < |places| && places[k] == i;
      assert places[t := index][k] == i;
    }
    if i == index { assert places[t := index][t] == i; }
  }

  /** A start announces the item of its block under the next position. */
  lemma StartKeeps(names: ToolNames, s: State, o: Order, announced: seq<(int, OutItem)>, index: int, kind: string,
                   id: string, name: string)
    requires Keeps(names, s, o, announced) && index !in s.blocks
    ensures var (s', events) := OnBlockStart(names, s, index, kind, id, name);
            Keeps(names, s', OrderStart(o, index, kind), announced + Announced(events))
  {
    hide Lists, PlaceSet, RestoreCall, Announced;
    var (s', events) := OnBlockStart(names, s, index, kind, id, name);
    var o' := OrderStart(o, index, kind);
    StartShaped(s.blocks, o, index, s'.blocks[index]);
    StartAnnounces(names, s, index, kind, id, name);
    var all := announced + Announced(events);
    hide Shaped;
    forall k | 0 <= k < |all| ensures all[k].0 == k && Announces(names, s'.blocks, o'.textId, o'.places[k], all[k].1) {
      if k < |announced| {
        assert all[k] == announced[k];
        KnownAnnounced(names, s.blocks, o, index, s'.blocks[index], k, announced[k].1);
      }
    }
  }

  lemma StartAnnounces(names: ToolNames, s: State, index: int, kind: string, id: string, name: string)
    ensures Announced(OnBlockStart(names, s, index, kind, id, name).1) ==
            if kind == "text" && s.msgIdx < 0 then [(s.outCount, Message(s.msgId, []))]
            else if kind == "tool_use" then [(s.outCount, Call(RestoreCall(names, FunctionCall(id, name, ""))))]
            else []
  {
    hide RestoreCall;
    var events := OnBlockStart(names, s, index, kind, id, name).1;
    if events != [] {
      assert events == [events[0]];
      AnnouncedOne(events[0]);
    }
  }

  lemma KnownAnnounced(names: ToolNames, blocks: map<int, BlockState>, o: Order, index: int, b: BlockState, k: nat,
                       item: OutItem)
    requires Shaped(blocks, o) && index !in blocks && k < |o.places|
             && Announces(names, blocks, o.textId, o.places[k], item)
    ensures var o' := OrderStart(o, index, b.kind);
            k < |o'.places| && Announces(names, blocks[index := b], o'.textId, o'.places[k], item)
  {
    hide Lists, PlaceSet, RestoreCall;
    assert o.places[k] in blocks;
  }

  lemma FragmentKeeps(names: ToolNames, s: State, o: Order, announced: seq<(int, OutItem)>, s': State)
    requires Keeps(names, s, o, announced) && s' == s.(blocks := s'.blocks) && s'.blocks.Keys == s.blocks.Keys
    requires forall i | i in s.blocks ::
               s'.blocks[i].kind == s.blocks[i].kind && s'.blocks[i].id == s.blocks[i].id
               && s'.blocks[i].name == s.blocks[i].name
    ensures Keeps(names, s', o, announced)
  {
    hide RestoreCall, Lists, PlaceSet;
    SamePlaces(s.blocks, s'.blocks);
    assert forall i :: IsText(s'.blocks, i) <==> IsText(s.blocks, i);
    forall k | 0 <= k < |o.places| ensures o.places[k] in s.blocks
        && s'.blocks[o.places[k]].kind == s.blocks[o.places[k]].kind {
    }
  }

  lemma Unannounced(events: seq<Event>)
    requires |events| <= 1 && (events != [] ==> !events[0].ItemAdded?)
    ensures Announced(events) == []
  {
    if events != [] {
      assert events == [events[0]];
      AnnouncedOne(events[0]);
    }
  }

  lemma TextKeeps(names: ToolNames, s: State, o: Order, announced: seq<(int, OutItem)>, index: int, text: string)
    requires Keeps(names, s, o, announced)
    ensures var (s', events) := OnText(s, index, text);
            Keeps(names, s', o, announced) && Announced(events) == []
  {
    hide Keeps;
    var (s', events) := OnText(s, index, text);
    Unannounced(events);
    FragmentKeeps(names, s, o, announced, s');
  }

  lemma JsonKeeps(names: ToolNames, s: State, o: Order, announced: seq<(int, OutItem)>, index: int, partial: string)
    requires Keeps(names, s, o, announced)
    ensures var r := OnJson(names, s, index, partial);
            r.Ok? ==> Keeps(names, r.value.0, o, announced) && Announced(r.value.1) == []
  {
    hide Keeps, ToolDelta;
    var r := OnJson(names, s, index, partial);
    if r.Ok? {
      var b := s.blocks[index];
      DeltasOnly(names, b.id, b.outIdx, b.name, partial, b.args + partial, b.inputEmitted);
      Unannounced(r.value.1);
      FragmentKeeps(names, s, o, announced, r.value.0);
    }
  }

  lemma EventKeeps(names: ToolNames, s: State, o: Order, announced: seq<(int, OutItem)>, ev: M.Event)
    requires Keeps(names, s, o, announced) && !ev.MessageStop? && (ev.BlockStart? ==> ev.index !in o.started)
    ensures var out := OnEvent(names, s, ev);
            Keeps(names, out.state, OrderMore(o, ev), announced + Announced(out.events))
  {
    hide Shaped, Announces, ToolDelta, OnBlockStart, Announced, OrderStart, OnText, OnJson;
    var out := OnEvent(names, s, ev);
    assert announced + [] == announced;
    Unannounced([]);
    match ev
    case BlockStart(index, kind, id, name) =>
      ShapedKeys(s.blocks, o);
      StartKeeps(names, s, o, announced, index, kind, id, name);
      EmittedKeeps(names, OnBlockStart(names, s, index, kind, id, name).0, OrderStart(o, index, kind),
                   announced + Announced(out.events), out.state);
    case TextFragment(index, text) =>
      TextKeeps(names, s, o, announced, index, text);
      EmittedKeeps(names, OnText(s, index, text).0, o, announced, out.state);
    case JsonFragment(index, partial) =>
      JsonKeeps(names, s, o, announced, index, partial);
      var r := OnJson(names, s, index, partial);
      EmittedKeeps(names, if r.Ok? then r.value.0 else s, o, announced, out.state);
    case MessageStart(id, _, _) =>
      Unannounced(out.events);
      RenamedShaped(s.blocks, o, id);
    case _ =>
  }

  lemma RenamedShaped(blocks: map<int, BlockState>, o: Order, id: string)
    requires Shaped(blocks, o)
    ensures Shaped(blocks, o.(id := id))
  {
  }

  lemma ShapedKeys(blocks: map<int, BlockState>, o: Order)
    requires Shaped(blocks, o)
    ensures o.started == blocks.Keys
  {
  }

  lemma EmittedKeeps(names: ToolNames, s: State, o: Order, announced: seq<(int, OutItem)>, s': State)
    requires Keeps(names, s, o, announced) && s' == s.(emitted := s'.emitted)
    ensures Keeps(names, s', o, announced)
  {
  }

  lemma DeltasOnly(names: ToolNames, itemId: string, index: int, name: string, fragment: string, accumulated: string,
                   emitted: nat)
    ensures var events := ToolDelta(names, itemId, index, name, fragment, accumulated, emitted).0;
            |events| <= 1 && (events != [] ==> !events[0].ItemAdded?)
  {
  }

  lemma {:induction false} RunKeeps(names: ToolNames, events: seq<M.Event>)
    requires FreshStarts(events)
    ensures var (s, sent) := Pieces.Run(names, Initial(), events);
            Keeps(names, s, OrderOf(events), Announced(sent))
    decreases |events|
  {
    hide OnEvent, Keeps, OrderMore;
    if events == [] {
      NothingKept(names);
    } else {
      var n := |events| - 1;
      var init := events[..n];
      forall k | 0 <= k < n ensures init[..k] == events[..k] && init[k] == events[k] {
      }
      RunKeeps(names, init);
      var (s, sent) := Pieces.Run(names, Initial(), init);
      EventKeeps(names, s, OrderOf(init), Announced(sent), events[n]);
      AnnouncedAppend(sent, OnEvent(names, s, events[n]).events);
    }
  }

  lemma NothingKept(names: ToolNames)
    ensures Keeps(names, Initial(), OrderOf([]), Announced([]))
  {
    assert PlaceSet(map[]) == {};
  }

  // ---- announced positions are final ----

  /** The message keeps the id it was announced under. */
  predicate IdKept(o: Order) {
    o.text.Some? ==> o.textId == o.id
  }

  predicate Distinct(ids: seq<string>) {
    forall i, j | 0 <= i < j < |ids| :: ids[i] != ids[j]
  }

  /** Tool blocks are told apart by their call ids. */
  ghost predicate Apart(blocks: map<int, BlockState>) {
    forall x, y | IsTool(blocks, x) && IsTool(blocks, y) && x != y :: blocks[x].id != blocks[y].id
  }

  /** The calls in the map have the ids that were sent for them. */
  ghost predicate Identified(blocks: map<int, BlockState>, ids: seq<string>) {
    && (forall i | IsTool(blocks, i) :: blocks[i].id in ids)
    && (Distinct(ids) ==> Apart(blocks))
  }

  lemma StartIdentified(blocks: map<int, BlockState>, ids: seq<string>, index: int, b: BlockState)
    requires Identified(blocks, ids) && index !in blocks
    ensures Identified(blocks[index := b], ids + if b.kind == "tool_use" then [b.id] else [])
  {
    var blocks', ids' := blocks[index := b], ids + if b.kind == "tool_use" then [b.id] else [];
    assert ids <= ids' && forall x | x in ids :: x in ids';
    assert b.kind == "tool_use" ==> ids'[|ids|] == b.id;
    if Distinct(ids') {
      assert Distinct(ids) by {
        forall i, j | 0 <= i < j < |ids| ensures ids[i] != ids[j] { assert ids'[i] == ids[i] && ids'[j] == ids[j]; }
      }
      if b.kind == "tool_use" {
        forall x | x in ids ensures x != b.id {
          var k :| 0 <= k < |ids| && ids[k] == x;
          assert ids'[k] == x;
        }
      }
    }
  }

  lemma {:induction false} RunIdentified(names: ToolNames, events: seq<M.Event>)
    requires FreshStarts(events)
    ensures Identified(Pieces.Run(names, Initial(), events).0.blocks, CallIds(events))
    decreases |events|
  {
    if events != [] {
      hide Identified, OnEvent, OrderMore;
      var n := |events| - 1;
      var init, ev := events[..n], events[n];
      forall k | 0 <= k < n ensures init[..k] == events[..k] && init[k] == events[k] {
      }
      RunIdentified(names, init);
      RunKeeps(names, init);
      var (s, sent) := Pieces.Run(names, Initial(), init);
      assert CallIds(init) + [] == CallIds(init);
      KeepsStarted(names, s, OrderOf(init), Announced(sent));
      if ev.BlockStart? {
        StartBlocks(names, s, ev);
        StartIdentified(s.blocks, CallIds(init), ev.index, OnEvent(names, s, ev).state.blocks[ev.index]);
      } else {
        OthersKeepBlocks(names, s, ev);
        SameIdentified(s.blocks, OnEvent(names, s, ev).state.blocks, CallIds(init));
      }
    }
  }

  lemma KeepsStarted(names: ToolNames, s: State, o: Order, announced: seq<(int, OutItem)>)
    requires Keeps(names, s, o, announced)
    ensures o.started == s.blocks.Keys
  {
  }

  lemma StartBlocks(names: ToolNames, s: State, ev: M.Event)
    requires ev.BlockStart?
    ensures var blocks := OnEvent(names, s, ev).state.blocks;
            ev.index in blocks && blocks == s.blocks[ev.index := blocks[ev.index]]
            && blocks[ev.index].kind == ev.kind && blocks[ev.index].id == ev.id
  {
    hide CallAdded;
  }

  lemma OthersKeepBlocks(names: ToolNames, s: State, ev: M.Event)
    requires !ev.BlockStart?
    ensures var blocks := OnEvent(names, s, ev).state.blocks;
            blocks.Keys == s.blocks.Keys && forall i | i in blocks ::
              blocks[i].kind == s.blocks[i].kind && blocks[i].id == s.blocks[i].id
  {
    hide ToolDelta, TerminalOf;
  }

  lemma SameIdentified(blocks: map<int, BlockState>, blocks': map<int, BlockState>, ids: seq<string>)
    requires Identified(blocks, ids) && blocks'.Keys == blocks.Keys
    requires forall i | i in blocks' :: blocks'[i].kind == blocks[i].kind && blocks'[i].id == blocks[i].id
    ensures Identified(blocks', ids)
  {
    assert forall i :: IsTool(blocks', i) <==> IsTool(blocks, i);
  }

  lemma CallItems(names: ToolNames, id: string, name: string, args: string)
    ensures RestoreCall(names, FunctionCall(id, name, "")).callId == id
            && RenderedCall(names, id, name, args).callId == id
    ensures SameItem(Call(RestoreCall(names, FunctionCall(id, name, ""))), Call(RenderedCall(names, id, name, args)))
  {
  }

  /** The announced item of a block and its rendered one are the same, for a message
      if its id was kept. */
  lemma SameBlockSameItem(names: ToolNames, s: State, o: Order, i: int, announced: OutItem, rendered: OutItem)
    requires Announces(names, s.blocks, o.textId, i, announced) && Fills(names, s, i, rendered)
    ensures SameItem(announced, rendered) <==> (s.blocks[i].kind == "text" ==> o.textId == s.msgId)
  {
    hide RestoreCall, RenderedCall, DefaultArgs;
    var b := s.blocks[i];
    if b.kind != "text" { CallItems(names, b.id, b.name, DefaultArgs(b.args)); }
  }

  /** Items that are the same come from the same block. */
  lemma SameItemSameBlock(names: ToolNames, s: State, o: Order, i: int, j: int, announced: OutItem, rendered: OutItem)
    requires Announces(names, s.blocks, o.textId, i, announced) && Fills(names, s, j, rendered)
             && SameItem(announced, rendered)
    requires TakesPlace(s.blocks, i) && TakesPlace(s.blocks, j)
    requires Apart(s.blocks)
    ensures i == j
  {
    hide RestoreCall, RenderedCall, DefaultArgs;
    if s.blocks[i].kind != "text" {
      CallItems(names, s.blocks[i].id, s.blocks[i].name, "");
      CallItems(names, s.blocks[j].id, s.blocks[j].name, DefaultArgs(s.blocks[j].args));
      assert IsTool(s.blocks, i) && IsTool(s.blocks, j);
    } else {
      assert IsText(s.blocks, i) && IsText(s.blocks, j);
    }
  }

  /** The items are announced in the order of the output if and only if the blocks
      behind them came in index order. */
  lemma {:induction false} PositionsIff(names: ToolNames, s: State, o: Order, announced: seq<(int, OutItem)>)
    requires Keeps(names, s, o, announced)
    ensures Increasing(o.places) && IdKept(o) ==> PositionsAgree(announced, OutputOf(names, s))
    ensures Apart(s.blocks) && PositionsAgree(announced, OutputOf(names, s)) ==> Increasing(o.places) && IdKept(o)
  {
    hide Increasing, Lists, PlaceSet, OutputOf, SameItem, Announces, Fills, TakesPlace;
    var slots := OutputPlaces(names, s);
    var output := OutputOf(names, s);
    if Increasing(o.places) && IdKept(o) {
      Meaning.SameElementsSameOrder(o.places, slots, PlaceSet(s.blocks));
      forall k | 0 <= k < |output| ensures announced[k].0 == k && SameItem(announced[k].1, output[k]) {
        SameBlockSameItem(names, s, o, slots[k], announced[k].1, output[k]);
      }
    }
    if Apart(s.blocks) && PositionsAgree(announced, output) {
      forall k | 0 <= k < |slots| ensures o.places[k] == slots[k] {
        ListsIn(o.places, PlaceSet(s.blocks), k);
        ListsIn(slots, PlaceSet(s.blocks), k);
        PlaceSetHas(s.blocks, o.places[k]);
        PlaceSetHas(s.blocks, slots[k]);
        SameItemSameBlock(names, s, o, o.places[k], slots[k], announced[k].1, output[k]);
      }
      assert o.places == slots;
      if o.text.Some? {
        var k := o.text.value;
        SameBlockSameItem(names, s, o, slots[k], announced[k].1, output[k]);
      }
    }
  }

  /** For every stream that starts each block index once: every announced index is
      the final position of its item, whenever the terminal is rendered, if the
      blocks behind the announced items came in index order (the message counting as
      its lowest text block) and message_start did not rename the message.  With
      distinct call ids it is so only then. */
  lemma {:induction false} AnnouncedIsFinalIff(names: ToolNames, events: seq<M.Event>)
    requires FreshStarts(events)
    ensures var (s, sent) := Pieces.Run(names, Initial(), events);
            var o, terminal := OrderOf(events), TerminalOf(names, s);
            && terminal != [] && terminal[|terminal| - 1].Completed?
            && (Increasing(o.places) && IdKept(o) ==> PositionsAgree(Announced(sent), terminal[|terminal| - 1].output))
            && (Distinct(CallIds(events)) ==>
                  (PositionsAgree(Announced(sent), terminal[|terminal| - 1].output) <==>
                   Increasing(o.places) && IdKept(o)))
  {
    hide Keeps, OrderOf, Pieces.Run, Increasing, OutputOf, Announced, PositionsAgree, Completions, Distinct;
    var (s, sent) := Pieces.Run(names, Initial(), events);
    RunKeeps(names, events);
    RunIdentified(names, events);
    PositionsIff(names, s, OrderOf(events), Announced(sent));
  }

  // ---- streams as upstreams send them ----

  /** Blocks start with increasing indexes, and message_start comes before them; the
      rest may come anywhere. */
  predicate InOrder(events: seq<M.Event>) {
    forall k | 0 <= k < |events| ::
      && !events[k].MessageStop?
      && (events[k].BlockStart? ==> forall i | i in OrderOf(events[..k]).started :: i < events[k].index)
      && (events[k].MessageStart? ==> OrderOf(events[..k]).started == {})
  }

  ghost predicate Ascends(o: Order) {
    && Increasing(o.places) && IdKept(o) && (forall i | i in o.places :: i in o.started)
    && (o.text.Some? ==> o.text.value < |o.places|) && (o.started == {} ==> o.text == None)
  }

  lemma OrderAscends(o: Order, ev: M.Event)
    requires Ascends(o) && (ev.BlockStart? ==> forall i | i in o.started :: i < ev.index)
             && (ev.MessageStart? ==> o.started == {})
    ensures Ascends(OrderMore(o, ev))
  {
    var o' := OrderMore(o, ev);
    if ev.BlockStart? {
      assert ev.index in o'.started;
      if o.text.Some? { assert o.places[o.text.value] in o.places; }
      SnocIncreasing(o.places, ev.index);
      assert o'.places == o.places || o'.places == o.places + [ev.index];
    }
  }

  lemma {:induction false} InOrderAscends(events: seq<M.Event>)
    requires InOrder(events)
    ensures Ascends(OrderOf(events)) && FreshStarts(events)
    decreases |events|
  {
    if events != [] {
      hide Ascends, OrderMore;
      var n := |events| - 1;
      var init := events[..n];
      forall k | 0 <= k < n ensures init[..k] == events[..k] && init[k] == events[k] {
      }
      InOrderAscends(init);
      OrderAscends(OrderOf(init), events[n]);
      forall k | 0 <= k < |events|
        ensures !events[k].MessageStop? && (events[k].BlockStart? ==> events[k].index !in OrderOf(events[..k]).started)
      {
      }
    }
  }

  /** With blocks in order, whatever else the stream does - text for an earlier block,
      pings, an early close - output[k] of the completed response is the item
      announced with output_index k, for all k, both when message_stop renders it
      and when a flush does. */
  lemma AnnouncedIndexIsFinalPositionInOrder(names: ToolNames, events: seq<M.Event>)
    requires InOrder(events)
    ensures var (s, sent) := Pieces.Run(names, Initial(), events);
            var terminal := TerminalOf(names, s);
            && OnEvent(names, s, M.MessageStop).events == terminal != [] && terminal[|terminal| - 1].Completed?
            && PositionsAgree(Announced(sent), terminal[|terminal| - 1].output)
  {
    hide OrderOf, Pieces.Run, Increasing, OutputOf, Announced, PositionsAgree, Completions;
    InOrderAscends(events);
    AnnouncedIsFinalIff(names, events);
  }
}
