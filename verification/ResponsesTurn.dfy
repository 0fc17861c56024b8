/** The meaning both Responses synthesizers give an assistant turn, free of the
    maps and indexes of their upstream protocols: items in the order they were
    announced, one of which aggregates all text. */
module ResponsesTurn {
  import opened Basics
  import opened ResponseTools
  import opened Wire

  datatype Item =
    | Text
    | Tool(callId: string, name: string, args: string, emitted: nat)

  /** textPos is the position of the one message item, -1 before it is announced. */
  datatype Turn = Turn(id: string, items: seq<Item>, textPos: int, text: string)

  datatype Action =
    | OpenText
    | AddText(fragment: string)
    | OpenTool(callId: string, name: string)
    | AddArgs(pos: nat, fragment: string)

  /** The position of the k-th call when the message sits at m (-1: nowhere yet). */
  function Place(m: int, k: nat): nat {
    if m < 0 || k < m then k else k + 1
  }

  function NewTurn(id: string): Turn {
    Turn(id, [], -1, "")
  }

  function Act(names: ToolNames, t: Turn, a: Action): (Turn, seq<Event>) {
    match a
    case OpenText =>
      if t.textPos >= 0 then (t, [])
      else (t.(textPos := |t.items|, items := t.items + [Text]), [ItemAdded(|t.items|, Message(t.id, []))])
    case AddText(f) =>
      (t.(text := t.text + f), [TextDelta(t.id, t.textPos, f)])
    case OpenTool(callId, name) =>
      (t.(items := t.items + [Tool(callId, name, "", 0)]), [CallAdded(names, |t.items|, callId, name)])
    case AddArgs(p, f) =>
      if p < |t.items| && t.items[p].Tool? then
        var tool := t.items[p];
        var args := tool.args + f;
        var (events, emitted) := ToolDelta(names, tool.callId, p, tool.name, f, args, tool.emitted);
        (t.(items := t.items[p := tool.(args := args, emitted := emitted)]), events)
      else (t, [])
  }

  function Acts(names: ToolNames, t: Turn, actions: seq<Action>): (Turn, seq<Event>) {
    if actions == [] then (t, [])
    else
      var (t1, e1) := Acts(names, t, actions[..|actions| - 1]);
      var (t2, e2) := Act(names, t1, actions[|actions| - 1]);
      (t2, e1 + e2)
  }

  /** AppendFunctionCall of the output assembler. */
  function RenderedCall(names: ToolNames, callId: string, name: string, args: string): RespItem {
    var id := Identity(names, name);
    if id.custom then
      RespItem("custom_tool_call", callId, id.name, id.namespace, "", Some(names.unwrap(args)), None, "")
    else
      RespItem("function_call", callId, id.name, id.namespace, args, None, None, "")
  }

  function Rendered(names: ToolNames, t: Turn, item: Item): OutItem {
    match item
    case Text => Message(t.id, [t.text])
    case Tool(callId, name, args, _) => Call(RenderedCall(names, callId, name, DefaultArgs(args)))
  }

  function Output(names: ToolNames, t: Turn): (r: seq<OutItem>)
    ensures |r| == |t.items|
    ensures forall k | 0 <= k < |r| :: r[k] == Rendered(names, t, t.items[k])
  {
    seq(|t.items|, k requires 0 <= k < |t.items| => Rendered(names, t, t.items[k]))
  }

  function Terminal(names: ToolNames, t: Turn, model: string, status: string, usage: ResponsesUsage): seq<Event> {
    Completions(Output(names, t)) + [Completed(t.id, model, status, usage, Output(names, t))]
  }

  lemma {:induction false} ActsAppend(names: ToolNames, t: Turn, a: seq<Action>, b: seq<Action>)
    ensures var (t1, e1) := Acts(names, t, a);
            var (t2, e2) := Acts(names, t1, b);
            Acts(names, t, a + b) == (t2, e1 + e2)
    decreases |b|
  {
    if b == [] {
      assert a + b == a;
      assert Acts(names, t, a).1 + [] == Acts(names, t, a).1;
    } else {
      assert (a + b)[..|a + b| - 1] == a + b[..|b| - 1];
      ActsAppend(names, t, a, b[..|b| - 1]);
      var (t1, e1) := Acts(names, t, a);
      var (t2, e2) := Acts(names, t1, b[..|b| - 1]);
      var (t3, e3) := Act(names, t2, b[|b| - 1]);
      assert e1 + e2 + e3 == e1 + (e2 + e3);
    }
  }

  // ---- announced index = final position ----

  /** The output_index and item of every announcement among the events, in order. */
  function Announced(events: seq<Event>): seq<(int, OutItem)> {
    if events == [] then []
    else
      Announced(events[..|events| - 1]) +
      match events[|events| - 1]
      case ItemAdded(index, item) => [(index, item)]
      case _ => []
  }

  /** The same item as a client tells items apart: a message by its id, a call
      by its kind, call id, and restored name and namespace. */
  predicate SameItem(a: OutItem, b: OutItem) {
    match (a, b)
    case (Message(x, _), Message(y, _)) => x == y
    case (Call(x), Call(y)) =>
      x.kind == y.kind && x.callId == y.callId && x.name == y.name && x.namespace == y.namespace
    case _ => false
  }

  /** Every item of the output was announced once, in order, under its own position. */
  predicate PositionsAgree(announced: seq<(int, OutItem)>, output: seq<OutItem>) {
    |announced| == |output|
    && forall k | 0 <= k < |output| :: announced[k].0 == k && SameItem(announced[k].1, output[k])
  }

  lemma {:induction false} AnnouncedAppend(a: seq<Event>, b: seq<Event>)
    ensures Announced(a + b) == Announced(a) + Announced(b)
    decreases |b|
  {
    if b == [] {
      assert a + b == a;
    } else {
      assert (a + b)[..|a + b| - 1] == a + b[..|b| - 1];
      AnnouncedAppend(a, b[..|b| - 1]);
    }
  }

  lemma AnnouncedOne(e: Event)
    ensures Announced([e]) == match e case ItemAdded(index, item) => [(index, item)] case _ => []
  {
    assert [e][..0] == [];
  }

  lemma ActKeepsPositions(names: ToolNames, t: Turn, a: Action, announced: seq<(int, OutItem)>)
    requires PositionsAgree(announced, Output(names, t))
    ensures var (t', events) := Act(names, t, a);
            t'.id == t.id && PositionsAgree(announced + Announced(events), Output(names, t'))
  {
    var (t', events) := Act(names, t, a);
    if events != [] {
      assert events == [events[0]];
      AnnouncedOne(events[0]);
    }
    var out, out' := Output(names, t), Output(names, t');
    forall k | 0 <= k < |out| ensures SameItem(out[k], out'[k]) {
    }
  }

  /** Over any run of a turn, output[k] of the completed response is the item
      that was announced with output_index k, for all k. */
  lemma {:induction false} AnnouncedIndexIsFinalPosition(names: ToolNames, id: string, actions: seq<Action>)
    ensures var (t, events) := Acts(names, NewTurn(id), actions);
            t.id == id && PositionsAgree(Announced(events), Output(names, t))
    decreases |actions|
  {
    if actions != [] {
      var init, last := actions[..|actions| - 1], actions[|actions| - 1];
      var (t, events) := Acts(names, NewTurn(id), init);
      AnnouncedIndexIsFinalPosition(names, id, init);
      ActKeepsPositions(names, t, last, Announced(events));
      AnnouncedAppend(events, Act(names, t, last).1);
    }
  }
}
