/** The tool calls of an upstream Responses stream, read off its events alone,
    and what the tracker makes of them. */
module ResponsesCalls {
  import opened Basics
  import opened ToolTracking
  import opened ResponsesEvents
  import opened ClaudeClient

  // ---- the calls of a stream; a call is known by its item id ----

  function Touched(ev: UpEvent): Option<string> {
    match ev
    case OutputItem(item) => if item.kind == "function_call" then Some(item.id) else None
    case ArgsFragment(itemId, _) => Some(itemId)
    case _ => None
  }

  predicate Completes(ev: UpEvent) {
    ev.OutputItem? && ev.item.kind == "function_call" && ev.item.arguments != ""
  }

  /** Calls in order of first appearance. */
  function Seen(events: seq<UpEvent>): seq<string> {
    if events == [] then []
    else
      var seen := Seen(events[..|events| - 1]);
      match Touched(events[|events| - 1])
      case None => seen
      case Some(id) => if id in seen then seen else seen + [id]
  }

  /** Some arguments of the call have been sent. */
  function Delivered(events: seq<UpEvent>, id: string): bool {
    if events == [] then false
    else
      var last := events[|events| - 1];
      Delivered(events[..|events| - 1], id) || (Touched(last) == Some(id) && (last.ArgsFragment? || Completes(last)))
  }

  /** The argument fragments of the call, joined. */
  function Fragments(events: seq<UpEvent>, id: string): string {
    if events == [] then ""
    else
      var last := events[|events| - 1];
      Fragments(events[..|events| - 1], id) + if last.ArgsFragment? && last.itemId == id then last.delta else ""
  }

  /** The arguments of the first item event that has any, unless a fragment came before it. */
  function Complete(events: seq<UpEvent>, id: string): string {
    if events == [] then ""
    else
      var init, last := events[..|events| - 1], events[|events| - 1];
      if Touched(last) == Some(id) && Completes(last) && !Delivered(init, id) then last.item.arguments
      else Complete(init, id)
  }

  /** The name a call is announced with: that of its first event; a fragment
      that comes first has only the item id. */
  function Announced(events: seq<UpEvent>, id: string): (string, string)
    requires id in Seen(events)
  {
    var init, last := events[..|events| - 1], events[|events| - 1];
    if id in Seen(init) then Announced(init, id)
    else match last
      case OutputItem(item) => (item.callId, item.name)
      case _ => (id, "")
  }

  /** What the client is told about the call. */
  function Told(events: seq<UpEvent>, id: string): (b: Block)
    requires id in Seen(events)
    ensures b.ToolBlock?
  {
    ToolBlock(Announced(events, id).0, Announced(events, id).1, Complete(events, id) + Fragments(events, id))
  }

  function Calls(events: seq<UpEvent>): (r: seq<Block>)
    ensures |r| == |Seen(events)| && forall k | 0 <= k < |r| :: r[k] == Told(events, Seen(events)[k]) && r[k].ToolBlock?
  {
    seq(|Seen(events)|, k requires 0 <= k < |Seen(events)| => Told(events, Seen(events)[k]))
  }

  // ---- complete arguments arrive exactly once ----

  /** Every complete copy of the call's arguments is the same. */
  ghost predicate Consistent(events: seq<UpEvent>, id: string, full: string) {
    forall k | 0 <= k < |events| ::
      Touched(events[k]) == Some(id) && Completes(events[k]) ==> events[k].item.arguments == full
  }

  /** A complete copy of the arguments comes before any fragment event, be that
      fragment empty. */
  ghost predicate CompleteFirst(events: seq<UpEvent>, id: string) {
    exists k | 0 <= k < |events| ::
      Touched(events[k]) == Some(id) && Completes(events[k]) && !Delivered(events[..k], id)
  }

  lemma {:induction false} CompleteIs(events: seq<UpEvent>, id: string, full: string)
    requires Consistent(events, id, full)
    ensures Complete(events, id) == if CompleteFirst(events, id) then full else ""
    decreases |events|
  {
    if events != [] {
      var n := |events| - 1;
      var init := events[..n];
      CompleteIs(init, id, full);
      if CompleteFirst(init, id) {
        var k :| 0 <= k < n && Touched(init[k]) == Some(id) && Completes(init[k]) && !Delivered(init[..k], id);
        assert events[k] == init[k] && events[..k] == init[..k];
      }
      if CompleteFirst(events, id) {
        var k :| 0 <= k < |events| && Touched(events[k]) == Some(id) && Completes(events[k])
                 && !Delivered(events[..k], id);
        if k < n { assert init[k] == events[k] && init[..k] == events[..k]; }
      }
      assert events[..n] == init;
    }
  }

  /** The client has a call's arguments, once, exactly when the fragments add up
      to nothing after a complete copy that came first, and to all of them if
      none did.  With fragments that are absent or whole, that fails in two ways:
      both are delivered, or an empty fragment keeps the complete copy away. */
  lemma ArgumentsArriveOnceIff(events: seq<UpEvent>, id: string, full: string)
    requires id in Seen(events) && Consistent(events, id, full)
    ensures Told(events, id).json == full <==> Fragments(events, id) == if CompleteFirst(events, id) then "" else full
    ensures full != "" && Fragments(events, id) in {"", full} ==>
              (Told(events, id).json == full <==> (CompleteFirst(events, id) <==> Fragments(events, id) != full))
  {
    CompleteIs(events, id, full);
    assert |full + Fragments(events, id)| == |full| + |Fragments(events, id)|;
    assert full + "" == full && "" + Fragments(events, id) == Fragments(events, id);
  }

  /** The smallest stream that loses them: a call announced without arguments, an
      empty fragment, then all arguments. */
  lemma EmptyFragmentLosesArguments(callId: string, id: string, name: string, full: string)
    requires full != ""
    ensures var events := [OutputItem(CallItem("function_call", callId, id, name, "")), ArgsFragment(id, ""),
                           OutputItem(CallItem("function_call", callId, id, name, full))];
            id in Seen(events) && Consistent(events, id, full) && Told(events, id).json == ""
  {
    hide Seen, Announced, Delivered, Fragments, Complete;
    var announced, whole := OutputItem(CallItem("function_call", callId, id, name, "")),
                            OutputItem(CallItem("function_call", callId, id, name, full));
    NothingYet(id);
    EventsSnoc([], announced);
    EventsSnoc([announced], ArgsFragment(id, ""));
    EventsSnoc([announced, ArgsFragment(id, "")], whole);
    assert [] + [announced] == [announced] && [announced] + [ArgsFragment(id, "")] == [announced, ArgsFragment(id, "")];
    assert [announced, ArgsFragment(id, "")] + [whole] == [announced, ArgsFragment(id, ""), whole];
  }

  /** The smallest stream that doubles them: a complete copy, then a fragment with
      all of them. */
  lemma LaterFragmentDoublesArguments(callId: string, id: string, name: string, full: string)
    requires full != ""
    ensures var events := [OutputItem(CallItem("function_call", callId, id, name, full)), ArgsFragment(id, full)];
            id in Seen(events) && Consistent(events, id, full) && Told(events, id).json == full + full
  {
    hide Seen, Announced, Delivered, Fragments, Complete;
    var whole := OutputItem(CallItem("function_call", callId, id, name, full));
    NothingYet(id);
    EventsSnoc([], whole);
    EventsSnoc([whole], ArgsFragment(id, full));
    assert [] + [whole] == [whole] && [whole] + [ArgsFragment(id, full)] == [whole, ArgsFragment(id, full)];
    assert "" + "" == "" && "" + full == full;
  }

  lemma NothingYet(id: string)
    ensures Seen([]) == [] && !Delivered([], id) && Fragments([], id) == "" && Complete([], id) == ""
  {
  }

  // ---- one event ----

  lemma EventsSnoc(events: seq<UpEvent>, ev: UpEvent)
    ensures var all := events + [ev];
            && Seen(all) == (match Touched(ev) case None => Seen(events)
                             case Some(id) => (if id in Seen(events) then Seen(events) else Seen(events) + [id]))
    ensures forall id :: Delivered(events + [ev], id) <==>
              Delivered(events, id) || (Touched(ev) == Some(id) && (ev.ArgsFragment? || Completes(ev)))
    ensures forall id :: Fragments(events + [ev], id)
              == Fragments(events, id) + if ev.ArgsFragment? && ev.itemId == id then ev.delta else ""
    ensures forall id :: Complete(events + [ev], id)
              == if Touched(ev) == Some(id) && Completes(ev) && !Delivered(events, id) then ev.item.arguments
              else Complete(events, id)
    ensures forall id | id in Seen(events) :: Announced(events + [ev], id) == Announced(events, id)
    ensures forall id | Touched(ev) == Some(id) && id !in Seen(events) ::
              Announced(events + [ev], id) == if ev.OutputItem? then (ev.item.callId, ev.item.name) else (id, "")
  {
    assert (events + [ev])[..|events|] == events;
  }

  lemma {:induction false} SeenOnce(events: seq<UpEvent>)
    ensures forall i, j | 0 <= i < j < |Seen(events)| :: Seen(events)[i] != Seen(events)[j]
    decreases |events|
  {
    if events != [] { SeenOnce(events[..|events| - 1]); }
  }

  lemma {:induction false} Undelivered(events: seq<UpEvent>, id: string)
    requires !Delivered(events, id)
    ensures Fragments(events, id) == "" && Complete(events, id) == ""
    decreases |events|
  {
    if events != [] { Undelivered(events[..|events| - 1], id); }
  }

  lemma {:induction false} Unseen(events: seq<UpEvent>, id: string)
    requires id !in Seen(events)
    ensures !Delivered(events, id)
    decreases |events|
  {
    if events != [] { Unseen(events[..|events| - 1], id); }
  }

  /** What one event sends for the call it touches: the fragment, or the complete
      arguments if nothing was sent before. */
  function Sent(events: seq<UpEvent>, ev: UpEvent): string {
    match Touched(ev)
    case None => ""
    case Some(id) =>
      if ev.ArgsFragment? then ev.delta
      else if Completes(ev) && !Delivered(events, id) then ev.item.arguments
      else ""
  }

  function Grown(b: Block, more: string): Block {
    match b
    case ToolBlock(id, name, json) => ToolBlock(id, name, json + more)
    case TextBlock(_) => b
  }

  lemma CallsSnoc(events: seq<UpEvent>, ev: UpEvent)
    ensures Touched(ev).None? ==> Calls(events + [ev]) == Calls(events)
    ensures forall id | Touched(ev) == Some(id) && id !in Seen(events) ::
              Calls(events + [ev]) == Calls(events) +
                [if ev.OutputItem? then ToolBlock(ev.item.callId, ev.item.name, Sent(events, ev))
                 else ToolBlock(id, "", Sent(events, ev))]
    ensures forall k | 0 <= k < |Seen(events)| && Touched(ev) == Some(Seen(events)[k]) ::
              Calls(events + [ev]) == Calls(events)[k := Grown(Calls(events)[k], Sent(events, ev))]
  {
    hide Seen, Announced, Delivered, Fragments, Complete, Told, Sent, Completes;
    EventsSnoc(events, ev);
    SeenOnce(events);
    var all, seen := events + [ev], Seen(events);
    forall k | 0 <= k < |seen|
      ensures seen[k] in Seen(all)
      ensures Touched(ev) != Some(seen[k]) ==> Told(all, seen[k]) == Told(events, seen[k])
      ensures Touched(ev) == Some(seen[k]) ==>
                Told(all, seen[k]) == Grown(Told(events, seen[k]), Sent(events, ev))
    {
      assert seen[k] in seen;
      ToldGrows(events, ev, seen[k]);
      assert Told(events, seen[k]).json + "" == Told(events, seen[k]).json;
    }
    if Touched(ev).Some? && Touched(ev).value !in seen {
      ToldFirst(events, ev, Touched(ev).value);
    }
  }

  lemma ToldFirst(events: seq<UpEvent>, ev: UpEvent, id: string)
    requires Touched(ev) == Some(id) && id !in Seen(events)
    ensures id in Seen(events + [ev])
    ensures Told(events + [ev], id) ==
            if ev.OutputItem? then ToolBlock(ev.item.callId, ev.item.name, Sent(events, ev))
            else ToolBlock(id, "", Sent(events, ev))
  {
    hide Seen, Announced, Delivered, Fragments, Complete;
    EventsSnoc(events, ev);
    Unseen(events, id);
    Undelivered(events, id);
    assert "" + "" == "";
    if ev.ArgsFragment? { assert "" + ("" + ev.delta) == ev.delta; }
    if ev.OutputItem? { assert ev.item.arguments + ("" + "") == ev.item.arguments; }
  }

  lemma ToldGrows(events: seq<UpEvent>, ev: UpEvent, id: string)
    requires id in Seen(events)
    ensures id in Seen(events + [ev])
    ensures var grown := if Touched(ev) == Some(id) then Sent(events, ev) else "";
            Told(events + [ev], id) == Grown(Told(events, id), grown)
  {
    hide Seen, Announced, Delivered, Fragments, Complete;
    EventsSnoc(events, ev);
    var c, f := Complete(events, id), Fragments(events, id);
    if Touched(ev) == Some(id) && ev.ArgsFragment? {
      assert c + (f + ev.delta) == c + f + ev.delta;
    } else if Touched(ev) == Some(id) && Completes(ev) && !Delivered(events, id) {
      Undelivered(events, id);
      assert ev.item.arguments + ("" + "") == "" + "" + ev.item.arguments;
    } else {
      assert c + (f + "") == c + f + "";
    }
  }

  // ---- what the tracker knows ----

  /** Each call has its own pair of non-empty names, all different. */
  ghost predicate Distinct(ids: map<string, string>) {
    && "" !in ids
    && (forall i | i in ids :: ids[i] != "" && ids[i] !in ids)
    && (forall i, j | i in ids && j in ids && i != j :: ids[i] != ids[j])
  }

  /** Item events carry both names of their call, fragments its item id. */
  predicate Keyed(ids: map<string, string>, ev: UpEvent) {
    match ev
    case OutputItem(item) => item.kind == "function_call" ==> item.id in ids && ids[item.id] == item.callId
    case ArgsFragment(itemId, _) => itemId in ids
    case _ => true
  }

  /** Both names of a call that was seen lead to its index. */
  ghost predicate Bound(ids: map<string, string>, t: Table, slots: map<string, nat>, next: nat) {
    && (forall i | i in slots :: i in ids && slots[i] < next)
    && (forall i, j | i in slots && j in slots && slots[i] == slots[j] :: i == j)
    && (forall i | i in ids :: i in t.keys <==> i in slots)
    && (forall i | i in slots :: i in t.keys && t.keys[i] == slots[i])
    && (forall i | i in ids && ids[i] in t.keys :: i in slots && t.keys[ids[i]] == slots[i])
    && "" !in t.keys
  }

  /** The tracker's table after the events: exactly the calls with something sent are marked. */
  ghost predicate Tracks(ids: map<string, string>, events: seq<UpEvent>, t: Table, slots: map<string, nat>, next: nat) {
    && Bound(ids, t, slots, next)
    && (forall i :: i in slots <==> i in Seen(events))
    && (forall i | i in slots :: slots[i] in t.delivered <==> Delivered(events, i))
    && (forall n | n in t.delivered :: n < next)
  }

  /** How the tracker answers an event that touches a call. */
  function SightingOf(t: Table, next: nat, ev: UpEvent): Sighting
    requires Touched(ev).Some?
  {
    match ev
    case OutputItem(item) => Observed(t, next, item.callId, item.id, item.arguments != "")
    case ArgsFragment(itemId, _) => Streamed(t, next, itemId)
  }

  /** A known call gets its other name bound, or both names again. */
  lemma BindsKnown(ids: map<string, string>, t: Table, slots: map<string, nat>, next: nat, id: string)
    requires Distinct(ids) && Bound(ids, t, slots, next) && id in ids && id in slots
    ensures Bound(ids, Bind(t, ids[id], slots[id]), slots, next) && Bound(ids, Bind(t, id, slots[id]), slots, next)
  {
  }

  lemma BindsNew(ids: map<string, string>, t: Table, slots: map<string, nat>, next: nat, id: string)
    requires Distinct(ids) && Bound(ids, t, slots, next) && id in ids && id !in slots
    ensures ids[id] !in t.keys && id !in t.keys
    ensures Bound(ids, Bind(Bind(t, ids[id], next), id, next), slots[id := next], next + 1)
  {
  }

  lemma KnownNames(ids: map<string, string>, t: Table, slots: map<string, nat>, next: nat, id: string)
    requires Distinct(ids) && Bound(ids, t, slots, next) && id in ids && id in slots
    ensures id in t.keys && t.keys[id] == slots[id] && (ids[id] in t.keys ==> t.keys[ids[id]] == slots[id])
  {
  }

  lemma ResolvesItem(ids: map<string, string>, t: Table, slots: map<string, nat>, next: nat, id: string)
    requires Distinct(ids) && Bound(ids, t, slots, next) && id in ids
    ensures var (t', first, index) := Resolve(t, next, ids[id], id);
            var slots' := if id in slots then slots else slots[id := next];
            && (first <==> id !in slots) && index == slots'[id] && t'.delivered == t.delivered
            && Bound(ids, t', slots', if first then next + 1 else next)
  {
    hide Bound, Distinct;
    if id in slots {
      KnownNames(ids, t, slots, next, id);
      BindsKnown(ids, t, slots, next, id);
    } else {
      BindsNew(ids, t, slots, next, id);
    }
  }

  lemma ResolvesFragment(ids: map<string, string>, t: Table, slots: map<string, nat>, next: nat, id: string)
    requires Distinct(ids) && Bound(ids, t, slots, next) && id in ids
    ensures var (t', first, index) := Resolve(t, next, id, "");
            var slots' := if id in slots then slots else slots[id := next];
            && (first <==> id !in slots) && index == slots'[id] && t'.delivered == t.delivered
            && Bound(ids, t', slots', if first then next + 1 else next)
  {
  }

  lemma MarksCall(events: seq<UpEvent>, t: Table, slots: map<string, nat>, next: nat, ev: UpEvent, id: string,
                  delivered: set<nat>)
    requires Touched(ev) == Some(id)
    requires (forall i :: i in slots <==> i in Seen(events)) && (forall n | n in t.delivered :: n < next)
    requires forall i | i in slots :: slots[i] < next && (slots[i] in t.delivered <==> Delivered(events, i))
    requires forall i, j | i in slots && j in slots && slots[i] == slots[j] :: i == j
    requires var index := if id in slots then slots[id] else next;
             delivered == if ev.ArgsFragment? || Completes(ev) then t.delivered + {index} else t.delivered
    ensures var slots' := if id in slots then slots else slots[id := next];
            && (forall i :: i in slots' <==> i in Seen(events + [ev]))
            && (forall i | i in slots' :: slots'[i] in delivered <==> Delivered(events + [ev], i))
            && (forall n | n in delivered :: n < if id in slots then next else next + 1)
            && (Delivered(events, id) ==> id in slots)
  {
    hide Seen, Delivered, Completes;
    EventsSnoc(events, ev);
    if id !in Seen(events) { Unseen(events, id); }
  }

  lemma {:induction false} TracksEvent(ids: map<string, string>, events: seq<UpEvent>, t: Table,
                                       slots: map<string, nat>, next: nat, ev: UpEvent)
    requires Distinct(ids) && Keyed(ids, ev) && Tracks(ids, events, t, slots, next) && Touched(ev).Some?
    ensures var id, seen := Touched(ev).value, SightingOf(t, next, ev);
            var slots' := if id in slots then slots else slots[id := next];
            && (seen.first <==> id !in Seen(events)) && seen.index == slots'[id]
            && (seen.deliver <==> ev.ArgsFragment? || (Completes(ev) && !Delivered(events, id)))
            && Tracks(ids, events + [ev], seen.table, slots', if seen.first then next + 1 else next)
  {
    hide Seen, Delivered, Resolve, Distinct, Bound, Completes;
    var id, seen := Touched(ev).value, SightingOf(t, next, ev);
    var whole := ev.OutputItem?;
    if whole { ResolvesItem(ids, t, slots, next, id); } else { ResolvesFragment(ids, t, slots, next, id); }
    var (t1, first, index) := if whole then Resolve(t, next, ids[id], id) else Resolve(t, next, id, "");
    var slots' := if id in slots then slots else slots[id := next];
    BoundSlots(ids, t, slots, next);
    AnswerIs(ids, t, next, ev, id);
    hide SightingOf;
    assert index in t.delivered ==> t.delivered + {index} == t.delivered;
    MarksCall(events, t, slots, next, ev, id, seen.table.delivered);
    BoundUnmarked(ids, t1, seen.table.delivered, slots', if first then next + 1 else next);
  }

  lemma AnswerIs(ids: map<string, string>, t: Table, next: nat, ev: UpEvent, id: string)
    requires Keyed(ids, ev) && Touched(ev) == Some(id) && id in ids
    ensures var (t1, first, index) := if ev.OutputItem? then Resolve(t, next, ids[id], id)
            else Resolve(t, next, id, "");
            var seen := SightingOf(t, next, ev);
            && seen.first == first && seen.index == index
            && (seen.deliver <==> ev.ArgsFragment? || (Completes(ev) && index !in t1.delivered))
            && seen.table == t1.(delivered := if seen.deliver then t1.delivered + {index} else t1.delivered)
  {
    hide Resolve;
  }

  lemma BoundUnmarked(ids: map<string, string>, t: Table, delivered: set<nat>, slots: map<string, nat>, next: nat)
    requires Bound(ids, t, slots, next)
    ensures Bound(ids, t.(delivered := delivered), slots, next)
  {
  }

  lemma BoundSlots(ids: map<string, string>, t: Table, slots: map<string, nat>, next: nat)
    requires Bound(ids, t, slots, next)
    ensures forall i | i in slots :: slots[i] < next
    ensures forall i, j | i in slots && j in slots && slots[i] == slots[j] :: i == j
  {
  }

  lemma TracksOther(ids: map<string, string>, events: seq<UpEvent>, t: Table, slots: map<string, nat>, next: nat,
                    next': nat, ev: UpEvent)
    requires Tracks(ids, events, t, slots, next) && Touched(ev).None? && next <= next'
    ensures Tracks(ids, events + [ev], t, slots, next')
  {
    hide Seen, Delivered;
    EventsSnoc(events, ev);
  }

  function SlotsAfter(slots: map<string, nat>, next: nat, ev: UpEvent): map<string, nat> {
    match Touched(ev)
    case None => slots
    case Some(id) => if id in slots then slots else slots[id := next]
  }

  lemma TracksSeen(ids: map<string, string>, events: seq<UpEvent>, t: Table, slots: map<string, nat>, next: nat)
    requires Tracks(ids, events, t, slots, next)
    ensures forall i :: i in slots <==> i in Seen(events)
  {
  }

  /** The block a call's first event opens, and what an event says to it. */
  function Blank(ev: UpEvent): (b: Block)
    requires Touched(ev).Some?
    ensures b.ToolBlock? && b.json == ""
  {
    match ev
    case OutputItem(item) => ToolBlock(item.callId, item.name, "")
    case ArgsFragment(itemId, _) => ToolBlock(itemId, "", "")
  }

  function Said(seen: Sighting, ev: UpEvent): string
    requires Touched(ev).Some?
  {
    match ev
    case OutputItem(item) => if seen.deliver then item.arguments else ""
    case ArgsFragment(_, delta) => delta
  }

  lemma AnswerSays(t: Table, next: nat, events: seq<UpEvent>, ev: UpEvent, seen: Sighting)
    requires Touched(ev).Some?
    requires seen.deliver <==> ev.ArgsFragment? || (Completes(ev) && !Delivered(events, Touched(ev).value))
    ensures Said(seen, ev) == Sent(events, ev)
  {
  }

  // ---- the rest of a stream ----

  function Spoken(events: seq<UpEvent>): string {
    if events == [] then ""
    else Spoken(events[..|events| - 1]) + match events[|events| - 1] case OutputText(d) => d case _ => ""
  }

  /** Some output item was a function call. */
  function CallsSeen(events: seq<UpEvent>): bool {
    if events == [] then false
    else
      var last := events[|events| - 1];
      CallsSeen(events[..|events| - 1]) || (last.OutputItem? && last.item.kind == "function_call")
  }

  lemma SpokenSnoc(events: seq<UpEvent>, ev: UpEvent)
    ensures Spoken(events + [ev]) == Spoken(events) + match ev case OutputText(d) => d case _ => ""
    ensures CallsSeen(events + [ev]) <==> CallsSeen(events) || (ev.OutputItem? && ev.item.kind == "function_call")
  {
    assert (events + [ev])[..|events|] == events;
  }
}
