/** The chat.completion.chunk stream as its client reads it. */
module ChatClient {
  import opened Basics
  import opened Wire

  datatype ChatEvent =
    | RoleChunk(id: string, model: string)
    | ContentChunk(text: string)
    | OpeningEntry(index: int, id: string, name: string, arguments: string)
    | ArgumentsEntry(index: int, arguments: string)
    | FinishChunk(finish: string, usage: ChatUsage)

  datatype ChatCall = ChatCall(id: string, name: string, arguments: string)

  /** calls is keyed by the entries' index; finish is the last one received. */
  datatype Reply = Reply(role: bool, text: string, calls: map<int, ChatCall>, finish: Option<(string, ChatUsage)>)

  const NO_REPLY := Reply(false, "", map[], None)

  /** The role comes first and once; an index is opened once, before its other entries. */
  function Accept(r: Reply, e: ChatEvent): Option<Reply> {
    match e
    case RoleChunk(_, _) => if r.role then None else Some(r.(role := true))
    case ContentChunk(t) => if !r.role then None else Some(r.(text := r.text + t))
    case OpeningEntry(i, id, name, args) =>
      if !r.role || i in r.calls then None else Some(r.(calls := r.calls[i := ChatCall(id, name, args)]))
    case ArgumentsEntry(i, args) =>
      if !r.role || i !in r.calls then None
      else Some(r.(calls := r.calls[i := r.calls[i].(arguments := r.calls[i].arguments + args)]))
    case FinishChunk(finish, usage) => Some(r.(finish := Some((finish, usage))))
  }

  function Read(r: Reply, events: seq<ChatEvent>): Option<Reply> {
    if events == [] then Some(r)
    else
      match Read(r, events[..|events| - 1])
      case None => None
      case Some(r1) => Accept(r1, events[|events| - 1])
  }

  lemma {:induction false} ReadAppend(r: Reply, a: seq<ChatEvent>, b: seq<ChatEvent>)
    ensures Read(r, a + b) == match Read(r, a) case None => None case Some(r1) => Read(r1, b)
    decreases |b|
  {
    hide Accept;
    if b == [] {
      assert a + b == a;
    } else {
      assert (a + b)[..|a + b| - 1] == a + b[..|b| - 1];
      ReadAppend(r, a, b[..|b| - 1]);
    }
  }

  lemma ReadOne(r: Reply, e: ChatEvent)
    ensures Read(r, [e]) == Accept(r, e)
  {
    assert [e][..0] == [];
  }

  // ---- the role and the rest, taken apart ----

  /** A client that has had its role. */
  const OPENED := NO_REPLY.(role := true)

  /** The role comes once, and before all content. */
  predicate RoleFirst(events: seq<ChatEvent>) {
    forall k | 0 <= k < |events| && !events[k].FinishChunk? :: events[k].RoleChunk? <==> !HasRole(events[..k])
  }

  predicate HasRole(events: seq<ChatEvent>) {
    exists k | 0 <= k < |events| :: events[k].RoleChunk?
  }

  function Unroled(events: seq<ChatEvent>): seq<ChatEvent> {
    if events == [] then []
    else Unroled(events[..|events| - 1]) + if events[|events| - 1].RoleChunk? then [] else [events[|events| - 1]]
  }

  lemma {:induction false} UnroledAppend(a: seq<ChatEvent>, b: seq<ChatEvent>)
    ensures Unroled(a + b) == Unroled(a) + Unroled(b)
    decreases |b|
  {
    if b == [] {
      assert a + b == a;
    } else {
      assert (a + b)[..|a + b| - 1] == a + b[..|b| - 1];
      UnroledAppend(a, b[..|b| - 1]);
    }
  }

  lemma UnroledOne(e: ChatEvent)
    ensures Unroled([e]) == if e.RoleChunk? then [] else [e]
  {
    assert [e][..0] == [];
  }

  /** The identities that role chunks give, in order. */
  function Roles(events: seq<ChatEvent>): seq<(string, string)> {
    if events == [] then []
    else
      Roles(events[..|events| - 1]) +
      match events[|events| - 1] case RoleChunk(id, model) => [(id, model)] case _ => []
  }

  lemma {:induction false} RolesAppend(a: seq<ChatEvent>, b: seq<ChatEvent>)
    ensures Roles(a + b) == Roles(a) + Roles(b)
    decreases |b|
  {
    if b == [] {
      assert a + b == a;
    } else {
      assert (a + b)[..|a + b| - 1] == a + b[..|b| - 1];
      RolesAppend(a, b[..|b| - 1]);
    }
  }

  lemma RolesOfOne(e: ChatEvent)
    ensures Roles([e]) == match e case RoleChunk(id, model) => [(id, model)] case _ => []
  {
    assert [e][..0] == [];
  }

  lemma RoleSnoc(events: seq<ChatEvent>, e: ChatEvent)
    ensures HasRole(events + [e]) <==> HasRole(events) || e.RoleChunk?
    ensures RoleFirst(events + [e]) <==>
            RoleFirst(events) && (!e.FinishChunk? ==> (e.RoleChunk? <==> !HasRole(events)))
  {
    var all := events + [e];
    assert all[..|events|] == events && all[|events|] == e;
    forall k | 0 <= k < |events| ensures all[..k] == events[..k] && all[k] == events[k] {
    }
  }

  lemma AcceptRole(r: Reply, o: Reply, e: ChatEvent)
    requires o.role && r == o.(role := r.role)
    ensures e.RoleChunk? ==> (Accept(r, e) == if r.role then None else Some(o))
    ensures !e.RoleChunk? && (r.role || e.FinishChunk?) ==>
              (Accept(r, e).Some? <==> Accept(o, e).Some?)
              && (Accept(r, e).Some? ==> Accept(r, e).value == Accept(o, e).value.(role := r.role))
    ensures !e.RoleChunk? && !r.role && !e.FinishChunk? ==> Accept(r, e).None?
    ensures !e.RoleChunk? && Accept(o, e).Some? ==> Accept(o, e).value.role
  {
  }

  /** A stream is accepted exactly when its role comes first and once and the rest is
      accepted without it. */
  lemma {:induction false} RoleAndContent(events: seq<ChatEvent>)
    ensures var r, o := Read(NO_REPLY, events), Read(OPENED, Unroled(events));
            && (r.Some? <==> RoleFirst(events) && o.Some?)
            && (r.Some? ==> r.value == o.value.(role := HasRole(events))) && (o.Some? ==> o.value.role)
    decreases |events|
  {
    if events != [] {
      hide Accept, RoleFirst, HasRole;
      var init, e := events[..|events| - 1], events[|events| - 1];
      RoleAndContent(init);
      RoleSnoc(init, e);
      assert init + [e] == events;
      var o := Read(OPENED, Unroled(init));
      if e.RoleChunk? {
        assert Unroled(events) == Unroled(init);
      } else {
        ReadAppend(OPENED, Unroled(init), [e]);
        if o.Some? { ReadOne(o.value, e); }
      }
      if o.Some? { AcceptRole(o.value.(role := HasRole(init)), o.value, e); }
    }
  }

  // ---- what acceptance means ----

  function Contents(events: seq<ChatEvent>): string {
    if events == [] then ""
    else
      Contents(events[..|events| - 1]) + match events[|events| - 1] case ContentChunk(text) => text case _ => ""
  }

  /** The entries of one index, in order. */
  function EntriesOf(events: seq<ChatEvent>, index: int): seq<ChatEvent> {
    if events == [] then []
    else
      EntriesOf(events[..|events| - 1], index) +
      match events[|events| - 1]
      case OpeningEntry(i, _, _, _) => (if i == index then [events[|events| - 1]] else [])
      case ArgumentsEntry(i, _) => (if i == index then [events[|events| - 1]] else [])
      case _ => []
  }

  function ArgumentsOf(entries: seq<ChatEvent>): string {
    if entries == [] then ""
    else
      ArgumentsOf(entries[..|entries| - 1]) +
      match entries[|entries| - 1]
      case OpeningEntry(_, _, _, args) => args
      case ArgumentsEntry(_, args) => args
      case _ => ""
  }

  /** The entries of a call: one that opens it, then only arguments. */
  predicate Opened(entries: seq<ChatEvent>) {
    entries != [] && entries[0].OpeningEntry? && forall k | 1 <= k < |entries| :: entries[k].ArgumentsEntry?
  }

  predicate CallIs(r: Reply, entries: seq<ChatEvent>, index: int) {
    if index !in r.calls then entries == []
    else Opened(entries) && r.calls[index] == ChatCall(entries[0].id, entries[0].name, ArgumentsOf(entries))
  }

  lemma EntryIsRead(r: Reply, events: seq<ChatEvent>, e: ChatEvent, index: int)
    requires Accept(r, e).Some? && CallIs(r, EntriesOf(events, index), index)
    ensures CallIs(Accept(r, e).value, EntriesOf(events + [e], index), index)
  {
    hide EntriesOf, ArgumentsOf, Opened;
    var entries := EntriesOf(events, index);
    EntriesSnoc(events, e, index);
    if (e.OpeningEntry? || e.ArgumentsEntry?) && e.index == index {
      EntryCounts(entries, e);
    } else {
      assert entries + [] == entries;
    }
  }

  lemma EntriesSnoc(events: seq<ChatEvent>, e: ChatEvent, index: int)
    ensures EntriesOf(events + [e], index) ==
            EntriesOf(events, index) + if (e.OpeningEntry? || e.ArgumentsEntry?) && e.index == index then [e] else []
  {
    assert (events + [e])[..|events|] == events;
  }

  lemma EntryCounts(entries: seq<ChatEvent>, e: ChatEvent)
    requires e.OpeningEntry? || e.ArgumentsEntry?
    ensures ArgumentsOf(entries + [e]) == ArgumentsOf(entries) + e.arguments
    ensures entries == [] ==> ArgumentsOf(entries) == "" && "" + e.arguments == e.arguments
    ensures Opened(entries + [e]) <==> if entries == [] then e.OpeningEntry? else Opened(entries) && e.ArgumentsEntry?
    ensures (entries + [e])[0] == (if entries == [] then e else entries[0]) && (Opened(entries) ==> entries != [])
  {
    assert (entries + [e])[..|entries|] == entries;
    if Opened(entries + [e]) {
      forall k | 1 <= k < |entries| ensures entries[k].ArgumentsEntry? { assert (entries + [e])[k] == entries[k]; }
      if entries != [] { assert (entries + [e])[|entries|] == e; }
    }
  }

  /** A reply that was accepted says the contents joined, and of each index that has
      entries a call: opened once, before all its other entries, with all their
      arguments; the role came once and before all of that. */
  lemma {:induction false} AcceptedRepliesSay(events: seq<ChatEvent>, index: int)
    requires Read(NO_REPLY, events).Some?
    ensures var r := Read(NO_REPLY, events).value;
            && r.text == Contents(events) && CallIs(r, EntriesOf(events, index), index)
            && |Roles(events)| == (if r.role then 1 else 0)
            && (Contents(events) != "" || EntriesOf(events, index) != [] ==> r.role)
    decreases |events|
  {
    if events != [] {
      var init, e := events[..|events| - 1], events[|events| - 1];
      assert init + [e] == events;
      AcceptedRepliesSay(init, index);
      var r := Read(NO_REPLY, init).value;
      EntryIsRead(r, init, e, index);
      assert r.text + "" == r.text;
    } else {
      assert EntriesOf([], index) == [];
    }
  }
}
