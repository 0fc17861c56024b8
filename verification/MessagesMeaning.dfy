/** What a Messages stream means to the Responses synthesizer: the converter,
    with its map of blocks and its sort at the end, follows the turn of
    ResponsesTurn on every stream whose blocks start in increasing order. */
module MessagesMeaning {
  import opened Basics
  import opened ResponseTools
  import opened Wire
  import opened ResponsesTurn
  import opened MessagesToResponses
  import M = MessagesEvents

  // ---- the blocks, in upstream order, as a turn ----

  ghost predicate InMap(blocks: map<int, BlockState>, order: seq<int>) {
    forall k | 0 <= k < |order| :: order[k] in blocks
  }

  function ItemOf(b: BlockState): Item {
    Tool(b.id, b.name, b.args, b.inputEmitted)
  }

  /** The turn these blocks add up to. */
  ghost function TurnOf(blocks: map<int, BlockState>, order: seq<int>, id: string): (t: Turn)
    requires InMap(blocks, order)
    ensures -1 <= t.textPos < |t.items| && t.id == id
    ensures t.textPos >= 0 ==> t.items[t.textPos] == Text
  {
    if order == [] then NewTurn(id)
    else
      var t := TurnOf(blocks, order[..|order| - 1], id);
      var b := blocks[order[|order| - 1]];
      if b.kind == "text" then
        (if t.textPos >= 0 then t else t.(textPos := |t.items|, items := t.items + [Text])).(text := t.text + b.text)
      else if b.kind == "tool_use" then t.(items := t.items + [ItemOf(b)])
      else t
  }

  /** Calls sit where they were announced. */
  ghost predicate Placed(blocks: map<int, BlockState>, order: seq<int>, id: string)
    requires InMap(blocks, order)
  {
    forall k | 0 <= k < |order| && blocks[order[k]].kind == "tool_use" ::
      blocks[order[k]].outIdx == |TurnOf(blocks, order[..k], id).items|
  }

  /** The converter's state stands for the turn. */
  ghost predicate Stands(s: State, order: seq<int>, t: Turn) {
    && Increasing(order) && Lists(order, s.blocks.Keys) && InMap(s.blocks, order)
    && t == TurnOf(s.blocks, order, s.msgId)
    && s.msgIdx == t.textPos && s.outCount == |t.items|
    && Placed(s.blocks, order, s.msgId)
  }

  // ---- the final array is the turn's output ----

  lemma ListsSize(order: seq<int>, keys: set<int>)
    requires Lists(order, keys)
    ensures order == [] <==> keys == {}
  {
    if order != [] {
      assert order[0] in keys;
    } else {
      Inhabited(keys);
    }
  }

  lemma {:induction false} SameElementsSameOrder(a: seq<int>, b: seq<int>, keys: set<int>)
    requires Increasing(a) && Increasing(b) && Lists(a, keys) && Lists(b, keys)
    ensures a == b
    decreases |a|
  {
    if a == [] {
      ListsSize(a, keys);
      ListsSize(b, keys);
    } else {
      assert a[0] in keys;
      var j :| 0 <= j < |b| && b[j] == a[0];
      assert b[0] in keys;
      var i :| 0 <= i < |a| && a[i] == b[0];
      assert i == 0 && j == 0;
      TailLists(a, keys);
      TailLists(b, keys);
      SameElementsSameOrder(a[1..], b[1..], keys - {a[0]});
      assert a == [a[0]] + a[1..] && b == [b[0]] + b[1..];
    }
  }

  lemma TailLists(a: seq<int>, keys: set<int>)
    requires a != [] && Increasing(a) && Lists(a, keys)
    ensures Increasing(a[1..]) && Lists(a[1..], keys - {a[0]})
  {
    forall i | i in keys - {a[0]} ensures exists k :: 0 <= k < |a[1..]| && a[1..][k] == i {
      var k :| 0 <= k < |a| && a[k] == i;
      assert a[1..][k - 1] == i;
    }
  }

  /** The assembler, fed in upstream order, holds the turn rendered item by item. */
  ghost predicate Holds(names: ToolNames, a: Assembly, t: Turn) {
    && a.slot == t.textPos && a.text == t.text && |a.items| == |t.items|
    && forall k | 0 <= k < |t.items| ::
         match t.items[k]
         case Text => a.items[k] == None
         case Tool(callId, name, args, _) =>
           a.items[k] == Some(Call(RenderedCall(names, callId, name, DefaultArgs(args))))
  }

  lemma {:induction false} AssembledIsTurn(names: ToolNames, blocks: map<int, BlockState>, order: seq<int>, id: string)
    requires InMap(blocks, order)
    ensures Holds(names, Assemble(names, blocks, order), TurnOf(blocks, order, id))
    decreases |order|
  {
    if order != [] {
      hide RenderedCall, DefaultArgs;
      AssembledIsTurn(names, blocks, order[..|order| - 1], id);
    }
  }

  lemma OutputIsTurns(names: ToolNames, s: State, order: seq<int>, t: Turn)
    requires Stands(s, order, t)
    ensures OutputOf(names, s) == Output(names, t)
  {
    SortedIsSorted(s.blocks.Keys);
    SameElementsSameOrder(Sorted(s.blocks.Keys), order, s.blocks.Keys);
    hide Sorted;
    AssembledIsTurn(names, s.blocks, order, s.msgId);
    var a := Assemble(names, s.blocks, order);
    forall k | 0 <= k < |t.items| ensures Filled(a, s.msgId)[k] == Rendered(names, t, t.items[k]) {
    }
  }

  // ---- updates of one block ----

  /** A change that leaves kinds, ids and names alone. */
  lemma {:induction false} TurnOfArgs(blocks: map<int, BlockState>, order: seq<int>, id: string, n: nat, args: string,
                                      emitted: nat)
    requires InMap(blocks, order) && Increasing(order) && n < |order|
    requires blocks[order[n]].kind == "tool_use" && Placed(blocks, order, id)
    ensures var b := blocks[order[n]];
            var b' := b.(args := args, inputEmitted := emitted);
            var t := TurnOf(blocks, order, id);
            && b.outIdx < |t.items| && t.items[b.outIdx] == ItemOf(b)
            && InMap(blocks[order[n] := b'], order)
            && TurnOf(blocks[order[n] := b'], order, id) == t.(items := t.items[b.outIdx := ItemOf(b')])
    decreases |order|
  {
    var blocks' := blocks[order[n] := blocks[order[n]].(args := args, inputEmitted := emitted)];
    var init := order[..|order| - 1];
    if n < |init| {
      PlacedPrefix(blocks, order, id);
      TurnOfArgs(blocks, init, id, n, args, emitted);
      assert order[|order| - 1] != order[n];
    } else {
      TurnOfUntouched(blocks, blocks', init, id);
    }
  }

  lemma PlacedPrefix(blocks: map<int, BlockState>, order: seq<int>, id: string)
    requires InMap(blocks, order) && order != [] && Placed(blocks, order, id)
    ensures Placed(blocks, order[..|order| - 1], id)
  {
    var init := order[..|order| - 1];
    forall k | 0 <= k < |init| && blocks[init[k]].kind == "tool_use"
      ensures blocks[init[k]].outIdx == |TurnOf(blocks, init[..k], id).items|
    {
      assert init[..k] == order[..k];
      assert init[k] == order[k];
    }
  }

  lemma {:induction false} TurnOfUntouched(blocks: map<int, BlockState>, blocks': map<int, BlockState>,
                                           order: seq<int>, id: string)
    requires InMap(blocks, order) && InMap(blocks', order)
    requires forall k | 0 <= k < |order| :: blocks[order[k]] == blocks'[order[k]]
    ensures TurnOf(blocks, order, id) == TurnOf(blocks', order, id)
    decreases |order|
  {
    if order != [] {
      TurnOfUntouched(blocks, blocks', order[..|order| - 1], id);
    }
  }

  /** More text at position n goes behind all text: no text block after it has any. */
  ghost predicate Appends(blocks: map<int, BlockState>, order: seq<int>, n: nat, more: string)
    requires InMap(blocks, order)
  {
    && n < |order| && blocks[order[n]].kind == "text"
    && (more != "" ==> forall k | n < k < |order| && blocks[order[k]].kind == "text" :: blocks[order[k]].text == "")
  }

  lemma {:induction false} TurnOfText(blocks: map<int, BlockState>, order: seq<int>, id: string, n: nat, more: string)
    requires InMap(blocks, order) && Increasing(order) && Appends(blocks, order, n, more)
    ensures var b := blocks[order[n]];
            var blocks' := blocks[order[n] := b.(text := b.text + more)];
            var t := TurnOf(blocks, order, id);
            && InMap(blocks', order) && t.textPos >= 0
            && TurnOf(blocks', order, id) == t.(text := t.text + more)
    decreases |order|
  {
    var b := blocks[order[n]];
    var blocks' := blocks[order[n] := b.(text := b.text + more)];
    var init := order[..|order| - 1];
    if n < |init| {
      TurnOfText(blocks, init, id, n, more);
      var last := blocks[order[|order| - 1]];
      assert order[|order| - 1] != order[n];
      assert more != "" && last.kind == "text" ==> last.text == "";
      var t := TurnOf(blocks, init, id);
      assert t.text + more + "" == t.text + "" + more;
      assert more == "" ==> t.text + more + last.text == t.text + last.text + more;
    } else {
      TurnOfUntouched(blocks, blocks', init, id);
      var t := TurnOf(blocks, init, id);
      assert t.text + (b.text + more) == (t.text + b.text) + more;
    }
  }

  lemma {:induction false} SameShape(blocks: map<int, BlockState>, blocks': map<int, BlockState>, order: seq<int>,
                                     id: string)
    requires InMap(blocks, order) && InMap(blocks', order)
    requires forall k | 0 <= k < |order| :: blocks[order[k]].kind == blocks'[order[k]].kind
    ensures |TurnOf(blocks, order, id).items| == |TurnOf(blocks', order, id).items|
    ensures TurnOf(blocks, order, id).textPos == TurnOf(blocks', order, id).textPos
    decreases |order|
  {
    if order != [] {
      SameShape(blocks, blocks', order[..|order| - 1], id);
    }
  }

  lemma PlacedStays(blocks: map<int, BlockState>, blocks': map<int, BlockState>, order: seq<int>, id: string)
    requires InMap(blocks, order) && InMap(blocks', order) && Placed(blocks, order, id)
    requires forall k | 0 <= k < |order| ::
               blocks[order[k]].kind == blocks'[order[k]].kind && blocks[order[k]].outIdx == blocks'[order[k]].outIdx
    ensures Placed(blocks', order, id)
  {
    forall k | 0 <= k < |order| && blocks'[order[k]].kind == "tool_use"
      ensures blocks'[order[k]].outIdx == |TurnOf(blocks', order[..k], id).items|
    {
      SameShape(blocks, blocks', order[..k], id);
    }
  }

  // ---- a new block ----

  lemma ListsSnoc(order: seq<int>, keys: set<int>, index: int)
    requires Increasing(order) && Lists(order, keys)
    requires forall k | 0 <= k < |order| :: order[k] < index
    ensures Increasing(order + [index]) && Lists(order + [index], keys + {index})
  {
    var order' := order + [index];
    forall i | i in keys + {index} ensures exists k :: 0 <= k < |order'| && order'[k] == i {
      if i == index {
        assert order'[|order|] == i;
      } else {
        assert i in keys;
        var k :| 0 <= k < |order| && order[k] == i;
        assert order'[k] == i;
      }
    }
  }

  lemma PlacedSnoc(blocks: map<int, BlockState>, order: seq<int>, id: string, index: int, b: BlockState)
    requires InMap(blocks, order) && Placed(blocks, order, id)
    requires forall k | 0 <= k < |order| :: order[k] < index
    requires b.kind == "tool_use" ==> b.outIdx == |TurnOf(blocks, order, id).items|
    ensures InMap(blocks[index := b], order + [index]) && Placed(blocks[index := b], order + [index], id)
  {
    var order' := order + [index];
    var blocks' := blocks[index := b];
    assert InMap(blocks', order');
    forall k | 0 <= k < |order'| && blocks'[order'[k]].kind == "tool_use"
      ensures blocks'[order'[k]].outIdx == |TurnOf(blocks', order'[..k], id).items|
    {
      assert order'[..k] == order[..k];
      TurnOfUntouched(blocks, blocks', order[..k], id);
      assert order[..|order|] == order;
    }
  }

  function WithBlock(t: Turn, b: BlockState): Turn {
    if b.kind == "text" then (if t.textPos >= 0 then t else t.(textPos := |t.items|, items := t.items + [Text]))
    else if b.kind == "tool_use" then t.(items := t.items + [ItemOf(b)])
    else t
  }

  lemma StartedBlock(s: State, order: seq<int>, t: Turn, s': State, index: int, b: BlockState)
    requires Stands(s, order, t)
    requires forall k | 0 <= k < |order| :: order[k] < index
    requires b.text == "" && (b.kind == "tool_use" ==> b.outIdx == |t.items|)
    requires s'.blocks == s.blocks[index := b] && s'.msgId == s.msgId
    requires s'.msgIdx == WithBlock(t, b).textPos && s'.outCount == |WithBlock(t, b).items|
    ensures Stands(s', order + [index], WithBlock(t, b))
  {
    hide Increasing, Lists, Placed;
    ListsSnoc(order, s.blocks.Keys, index);
    assert s'.blocks.Keys == s.blocks.Keys + {index};
    PlacedSnoc(s.blocks, order, s.msgId, index, b);
    var order' := order + [index];
    assert order'[..|order|] == order;
    TurnOfUntouched(s.blocks, s'.blocks, order, s.msgId);
    assert t.text + "" == t.text;
  }

  // ---- one event at a time ----

  /** The actions of one block event, given what has been announced. */
  function EventActions(s: State, ev: M.Event): seq<Action> {
    match ev
    case BlockStart(_, kind, id, name) =>
      if kind == "text" && s.msgIdx < 0 then [OpenText]
      else if kind == "tool_use" then [OpenTool(id, name)]
      else []
    case TextFragment(_, text) => [AddText(text)]
    case JsonFragment(index, partial) =>
      if index in s.blocks then [AddArgs(s.blocks[index].outIdx, partial)] else []
    case _ => []
  }

  /** Events between message_start and message_delta, as an upstream sends them:
      block starts with increasing indexes, text for a text block with no text behind
      it, JSON for a tool block. */
  ghost predicate InOrder(s: State, order: seq<int>, ev: M.Event)
    requires InMap(s.blocks, order)
  {
    match ev
    case BlockStart(index, _, _, _) => forall k | 0 <= k < |order| :: order[k] < index
    case TextFragment(index, text) => exists n: nat :: Appends(s.blocks, order, n, text) && order[n] == index
    case JsonFragment(index, _) => index in s.blocks && s.blocks[index].kind == "tool_use"
    case Other => true
    case _ => false
  }

  function After(order: seq<int>, ev: M.Event): seq<int> {
    match ev
    case BlockStart(index, _, _, _) => order + [index]
    case _ => order
  }

  lemma ActsOne(names: ToolNames, t: Turn, a: Action)
    ensures Acts(names, t, [a]) == Act(names, t, a)
  {
    assert [a][..0] == [];
    var (t', e) := Act(names, t, a);
    assert [] + e == e;
  }

  lemma BlockStartStep(names: ToolNames, s: State, order: seq<int>, t: Turn, index: int, kind: string, id: string,
                       name: string)
    requires Stands(s, order, t) && forall k | 0 <= k < |order| :: order[k] < index
    ensures var (s', events) := OnBlockStart(names, s, index, kind, id, name);
            var (t', events') := Acts(names, t, EventActions(s, M.BlockStart(index, kind, id, name)));
            Stands(s', order + [index], t') && events == events' && t'.id == t.id
  {
    hide Stands, CallAdded;
    StandsBasics(s, order, t);
    var (s', events) := OnBlockStart(names, s, index, kind, id, name);
    var b := BlockState(kind, id, name, if kind == "tool_use" then s.outCount else 0, "", "", 0);
    if kind == "text" && s.msgIdx < 0 {
      ActsOne(names, t, OpenText);
    } else if kind == "tool_use" {
      ActsOne(names, t, OpenTool(id, name));
    }
    StartedBlock(s, order, t, s', index, b);
  }

  lemma StandsBasics(s: State, order: seq<int>, t: Turn)
    requires Stands(s, order, t)
    ensures t.id == s.msgId && s.msgIdx == t.textPos >= -1 && s.outCount == |t.items| && InMap(s.blocks, order)
  {
  }

  lemma TextStep(names: ToolNames, s: State, order: seq<int>, t: Turn, n: nat, text: string)
    requires Stands(s, order, t) && Appends(s.blocks, order, n, text)
    ensures var (s', events) := OnText(s, order[n], text);
            var (t', events') := Acts(names, t, [AddText(text)]);
            Stands(s', order, t') && events == events' && t'.id == t.id
  {
    ActsOne(names, t, AddText(text));
    var (s', _) := OnText(s, order[n], text);
    TurnOfText(s.blocks, order, s.msgId, n, text);
    PlacedStays(s.blocks, s'.blocks, order, s.msgId);
    assert s'.blocks.Keys == s.blocks.Keys;
  }

  lemma JsonStep(names: ToolNames, s: State, order: seq<int>, t: Turn, index: int, partial: string)
    requires Stands(s, order, t) && index in s.blocks && s.blocks[index].kind == "tool_use"
    ensures OnJson(names, s, index, partial).Ok?
    ensures var (s', events) := OnJson(names, s, index, partial).value;
            var (t', events') := Acts(names, t, [AddArgs(s.blocks[index].outIdx, partial)]);
            Stands(s', order, t') && events == events' && t'.id == t.id
  {
    hide ToolDelta;
    var b := s.blocks[index];
    ActsOne(names, t, AddArgs(b.outIdx, partial));
    var n :| 0 <= n < |order| && order[n] == index;
    var (s', _) := OnJson(names, s, index, partial).value;
    TurnOfArgs(s.blocks, order, s.msgId, n, s'.blocks[index].args, s'.blocks[index].inputEmitted);
    PlacedStays(s.blocks, s'.blocks, order, s.msgId);
    assert s'.blocks.Keys == s.blocks.Keys;
  }

  /** Each event of a well-formed stream does to the converter what its actions
      do to the turn, and both emit the same. */
  lemma {:induction false} EventStep(names: ToolNames, s: State, order: seq<int>, t: Turn, ev: M.Event)
    requires Stands(s, order, t) && InOrder(s, order, ev)
    ensures var o := OnEvent(names, s, ev);
            var (t', events) := Acts(names, t, EventActions(s, ev));
            && o.err.None? && !o.done && o.events == events
            && Stands(o.state, After(order, ev), t') && t'.id == t.id
            && o.state.model == s.model && UsageOf(o.state) == UsageOf(s)
  {
    hide Stands, Acts, OnText, OnJson;
    StandsBasics(s, order, t);
    match ev
    case BlockStart(index, kind, id, name) =>
      BlockStartStep(names, s, order, t, index, kind, id, name);
      StandsEmitted(OnBlockStart(names, s, index, kind, id, name).0, order + [index],
                    Acts(names, t, EventActions(s, ev)).0, OnEvent(names, s, ev).state);
    case TextFragment(index, text) =>
      var n: nat :| Appends(s.blocks, order, n, text) && order[n] == index;
      TextStep(names, s, order, t, n, text);
      KeepsCounts(names, s, index, text);
      StandsEmitted(OnText(s, index, text).0, order, Acts(names, t, EventActions(s, ev)).0,
                    OnEvent(names, s, ev).state);
    case JsonFragment(index, partial) =>
      JsonStep(names, s, order, t, index, partial);
      KeepsCounts(names, s, index, partial);
      StandsEmitted(OnJson(names, s, index, partial).value.0, order,
                    Acts(names, t, EventActions(s, ev)).0, OnEvent(names, s, ev).state);
    case Other =>
      NoActs(names, t);
      StandsEmitted(s, order, t, OnEvent(names, s, ev).state);
  }

  lemma NoActs(names: ToolNames, t: Turn)
    ensures Acts(names, t, []) == (t, [])
  {
  }

  lemma KeepsCounts(names: ToolNames, s: State, index: int, more: string)
    ensures var (s', _) := OnText(s, index, more); s'.model == s.model && UsageOf(s') == UsageOf(s)
    ensures var r := OnJson(names, s, index, more);
            r.Ok? ==> r.value.0.model == s.model && UsageOf(r.value.0) == UsageOf(s)
  {
  }

  lemma StandsEmitted(s: State, order: seq<int>, t: Turn, s': State)
    requires Stands(s, order, t) && s' == s.(emitted := s'.emitted)
    ensures Stands(s', order, t)
  {
  }
}
