/** Custom tools in whole streams: the input deltas a Responses client receives for
    one call, among those of all others, against the input of its done event. */
module StreamedInputs {
  import opened Basics
  import opened ResponseTools
  import opened Wire
  import opened ResponsesTurn
  import opened TurnPieces
  import C = CustomInput
  import Chat = ChatMeaning
  import ChatChunks
  import C2R = ChatToResponses
  import Messages = MessagesPieces
  import Json

  // ---- what a client reads for one output index ----

  predicate DeltaOf(e: Event, p: int) {
    (e.ArgsDelta? || e.CustomInputDelta?) && e.index == p
  }

  function DeltasAt(events: seq<Event>, p: int): seq<Event> {
    if events == [] then []
    else DeltasAt(events[..|events| - 1], p) + if DeltaOf(events[|events| - 1], p) then [events[|events| - 1]] else []
  }

  /** The custom input deltas of the index, joined. */
  function InputAt(events: seq<Event>, p: int): string {
    C.Input(DeltasAt(events, p))
  }

  /** The input of the index's done event. */
  function DoneAt(events: seq<Event>, p: int): Option<string> {
    if events == [] then None
    else match events[|events| - 1]
      case CustomInputDone(_, i, input) => if i == p then Some(input) else DoneAt(events[..|events| - 1], p)
      case _ => DoneAt(events[..|events| - 1], p)
  }

  lemma {:induction false} DeltasAppend(a: seq<Event>, b: seq<Event>, p: int)
    ensures DeltasAt(a + b, p) == DeltasAt(a, p) + DeltasAt(b, p)
    ensures DoneAt(a + b, p) == if DoneAt(b, p).Some? then DoneAt(b, p) else DoneAt(a, p)
    decreases |b|
  {
    if b == [] {
      assert a + b == a;
    } else {
      assert (a + b)[..|a + b| - 1] == a + b[..|b| - 1];
      DeltasAppend(a, b[..|b| - 1], p);
    }
  }

  lemma {:induction false} NoDeltas(events: seq<Event>, p: int)
    requires forall k | 0 <= k < |events| :: !DeltaOf(events[k], p)
    ensures DeltasAt(events, p) == []
    decreases |events|
  {
    if events != [] { NoDeltas(events[..|events| - 1], p); }
  }

  lemma {:induction false} NotDone(events: seq<Event>, p: int)
    requires forall k | 0 <= k < |events| :: !events[k].CustomInputDone? || events[k].index != p
    ensures DoneAt(events, p) == None
    decreases |events|
  {
    if events != [] { NotDone(events[..|events| - 1], p); }
  }

  lemma DeltasOne(e: Event, p: int)
    ensures DeltasAt([e], p) == if DeltaOf(e, p) then [e] else []
  {
    assert [e][..0] == [];
  }

  // ---- the fragments of one call in a run of a turn ----

  predicate IsCall(t: Turn, p: nat) {
    p < |t.items| && t.items[p].Tool?
  }

  /** The fragments that reached the call at position p. */
  function Fragments(names: ToolNames, id: string, actions: seq<Action>, p: nat): seq<string> {
    if actions == [] then []
    else
      var init, last := actions[..|actions| - 1], actions[|actions| - 1];
      Fragments(names, id, init, p) +
      if last.AddArgs? && last.pos == p && IsCall(Acts(names, NewTurn(id), init).0, p) then [last.fragment] else []
  }

  /** What is sent for a position: fragments of its call, and nothing else. */
  lemma SentAt(names: ToolNames, t: Turn, a: Action, p: nat)
    ensures DeltasAt(Act(names, t, a).1, p) ==
            if a.AddArgs? && a.pos == p && IsCall(t, p) then
              ToolDelta(names, t.items[p].callId, p, t.items[p].name, a.fragment, t.items[p].args + a.fragment,
                        t.items[p].emitted).0
            else []
  {
    hide CallAdded, ToolDelta, DeltasAt;
    NoDeltas([], p);
    match a
    case OpenText =>
      var e := ItemAdded(|t.items|, Message(t.id, []));
      DeltasOne(e, p);
    case AddText(f) => DeltasOne(TextDelta(t.id, t.textPos, f), p);
    case OpenTool(callId, name) =>
      AnnouncesOnly(names, |t.items|, callId, name);
      DeltasOne(CallAdded(names, |t.items|, callId, name), p);
    case AddArgs(q, f) =>
      if IsCall(t, q) {
        var tool := t.items[q];
        SendsOnly(names, tool.callId, q, tool.name, f, tool.args + f, tool.emitted);
        var events := ToolDelta(names, tool.callId, q, tool.name, f, tool.args + f, tool.emitted).0;
        if events != [] {
          assert events == [events[0]];
          DeltasOne(events[0], p);
        }
      }
  }

  lemma AnnouncesOnly(names: ToolNames, index: int, callId: string, name: string)
    ensures CallAdded(names, index, callId, name).ItemAdded?
  {
  }

  lemma SendsOnly(names: ToolNames, itemId: string, index: int, name: string, fragment: string, accumulated: string,
                  emitted: nat)
    ensures var events := ToolDelta(names, itemId, index, name, fragment, accumulated, emitted).0;
            |events| <= 1 && forall k, p | 0 <= k < |events| :: DeltaOf(events[k], p) <==> p == index
  {
    hide Identity;
  }

  /** What one action does to the call at a position. */
  lemma ActAt(names: ToolNames, t: Turn, a: Action, p: nat)
    requires IsCall(t, p)
    ensures var (t', _) := Act(names, t, a);
            && IsCall(t', p) && t'.items[p].callId == t.items[p].callId && t'.items[p].name == t.items[p].name
            && if a.AddArgs? && a.pos == p then
                 && t'.items[p].args == t.items[p].args + a.fragment
                 && t'.items[p].emitted == ToolDelta(names, t.items[p].callId, p, t.items[p].name, a.fragment,
                                                     t.items[p].args + a.fragment, t.items[p].emitted).1
               else t'.items[p] == t.items[p]
  {
    hide CallAdded, ToolDelta;
  }

  /** Nothing is sent for a position that has no item yet. */
  lemma {:induction false} NothingAhead(names: ToolNames, id: string, actions: seq<Action>, p: nat)
    requires p >= |Acts(names, NewTurn(id), actions).0.items|
    ensures DeltasAt(Acts(names, NewTurn(id), actions).1, p) == [] && Fragments(names, id, actions, p) == []
    decreases |actions|
  {
    if actions != [] {
      var init, last := actions[..|actions| - 1], actions[|actions| - 1];
      var (t, e) := Acts(names, NewTurn(id), init);
      ItemsStay(names, t, last);
      hide Act;
      NothingAhead(names, id, init, p);
      DeltasAppend(e, Act(names, t, last).1, p);
      SentAt(names, t, last, p);
    }
  }

  lemma ItemsStay(names: ToolNames, t: Turn, a: Action)
    ensures |t.items| <= |Act(names, t, a).0.items|
  {
    hide CallAdded, ToolDelta;
  }

  /** A position that is a call now was a call before, or has just been opened. */
  lemma CallOpens(names: ToolNames, t: Turn, a: Action, p: nat)
    requires IsCall(Act(names, t, a).0, p) && !IsCall(t, p)
    ensures p == |t.items| && a.OpenTool? && Act(names, t, a).0.items[p] == Tool(a.callId, a.name, "", 0)
  {
    hide CallAdded, ToolDelta;
  }

  /** Among all others, one call is treated as if its fragments came alone. */
  lemma {:induction false} RunIsFeed(names: ToolNames, id: string, actions: seq<Action>, p: nat)
    requires IsCall(Acts(names, NewTurn(id), actions).0, p)
    ensures var (t, events) := Acts(names, NewTurn(id), actions);
            var alone := C.Feed(names, t.items[p].callId, p, t.items[p].name, Fragments(names, id, actions, p));
            && alone.accumulated == t.items[p].args && alone.emitted == t.items[p].emitted
            && alone.events == DeltasAt(events, p)
    decreases |actions|
  {
    hide Act, ToolDelta;
    if actions == [] {
    } else {
      var init, last := actions[..|actions| - 1], actions[|actions| - 1];
      var (t, e) := Acts(names, NewTurn(id), init);
      var (t', more) := Act(names, t, last);
      DeltasAppend(e, more, p);
      SentAt(names, t, last, p);
      if IsCall(t, p) {
        RunIsFeed(names, id, init, p);
        ActAt(names, t, last, p);
        var before := Fragments(names, id, init, p);
        if last.AddArgs? && last.pos == p {
          assert (before + [last.fragment])[..|before|] == before;
        } else {
          assert before + [] == before;
          assert DeltasAt(e, p) + [] == DeltasAt(e, p);
        }
      } else {
        CallOpens(names, t, last, p);
        NothingAhead(names, id, init, p);
      }
    }
  }

  // ---- the done event ----

  lemma CompletionAt(item: OutItem, n: int, p: int)
    ensures DeltasAt(ItemCompletion(n, item), p) == []
    ensures n != p ==> DoneAt(ItemCompletion(n, item), p) == None
    ensures n == p && item.Call? && item.call.kind == "custom_tool_call" && item.call.input.Some? ==>
              DoneAt(ItemCompletion(n, item), p) == item.call.input
  {
    hide Concat;
    var c := ItemCompletion(n, item);
    NoDeltas(c, p);
    if n != p { NotDone(c, p); }
    if n == p && item.Call? && item.call.kind == "custom_tool_call" && item.call.input.Some? {
      assert c[..1] == [c[0]];
      assert [c[0]][..0] == [];
    }
  }

  lemma {:induction false} CompletionsAt(items: seq<OutItem>, p: int)
    ensures DeltasAt(Completions(items), p) == []
    ensures 0 <= p < |items| && items[p].Call? && items[p].call.kind == "custom_tool_call"
            && items[p].call.input.Some? ==>
              DoneAt(Completions(items), p) == items[p].call.input
    decreases |items|
  {
    hide ItemCompletion;
    if items != [] {
      var n := |items| - 1;
      CompletionsAt(items[..n], p);
      CompletionAt(items[n], n, p);
      DeltasAppend(Completions(items[..n]), ItemCompletion(n, items[n]), p);
    }
  }

  /** The done event of a custom call has its unwrapped, defaulted arguments. */
  lemma {:induction false} TerminalAt(names: ToolNames, t: Turn, model: string, status: string, usage: ResponsesUsage,
                                      p: nat)
    requires IsCall(t, p) && Identity(names, t.items[p].name).custom
    ensures var terminal := Terminal(names, t, model, status, usage);
            DeltasAt(terminal, p) == [] && DoneAt(terminal, p) == Some(names.unwrap(DefaultArgs(t.items[p].args)))
  {
    hide Completions, DefaultArgs;
    var output := Output(names, t);
    CompletionsAt(output, p);
    var end := Completed(t.id, model, status, usage, output);
    DeltasAppend(Completions(output), [end], p);
    DeltasOne(end, p);
    assert [end][..0] == [];
    assert output[p] == Rendered(names, t, t.items[p]);
    assert DeltasAt(Completions(output), p) + [] == [];
  }

  /** The deltas of the index spell the input of its done event if and only if the
      arguments decode to an object with a string input, and then they spell that. */
  predicate SpellsIff(events: seq<Event>, p: int, args: string) {
    var input := Json.WrappedInput(args);
    && DoneAt(events, p).Some? && (InputAt(events, p) == DoneAt(events, p).value <==> input.Some?)
    && (input.Some? ==> InputAt(events, p) == input.value)
  }

  /** For every run of a turn, with its calls interleaved in any way, and each of
      its custom calls. */
  lemma {:induction false} DeltasSpellTheDoneInputIff(names: ToolNames, id: string, actions: seq<Action>, p: nat,
                                                      model: string, status: string, usage: ResponsesUsage)
    requires names.unwrap == Json.UnwrapCustomToolInput
    requires var t := Acts(names, NewTurn(id), actions).0; IsCall(t, p) && Identity(names, t.items[p].name).custom
    ensures var (t, events) := Acts(names, NewTurn(id), actions);
            SpellsIff(events + Terminal(names, t, model, status, usage), p, t.items[p].args)
  {
    hide Acts, Terminal, DefaultArgs, Json.WrappedInput, C.Feed, C.Input, Fragments, Json.UnwrapCustomToolInput;
    var (t, events) := Acts(names, NewTurn(id), actions);
    var fragments := Fragments(names, id, actions, p);
    RunIsFeed(names, id, actions, p);
    TerminalAt(names, t, model, status, usage, p);
    DeltasAppend(events, Terminal(names, t, model, status, usage), p);
    assert DeltasAt(events, p) + [] == DeltasAt(events, p);
    C.DeltasSpellFirstInput(names, t.items[p].callId, p, t.items[p].name, fragments);
    C.DeltasEqualDoneIff(names, t.items[p].callId, p, t.items[p].name, fragments);
  }

  // ---- streams, by what their pieces say ----

  /** The id and name of each call, in order. */
  function Starts(pieces: seq<Piece>): seq<(string, string)> {
    if pieces == [] then []
    else Starts(pieces[..|pieces| - 1]) + match pieces[|pieces| - 1] case Start(id, name) => [(id, name)] case _ => []
  }

  /** All fragments of the k-th call, joined. */
  function Joined(pieces: seq<Piece>, k: nat): string {
    if pieces == [] then ""
    else
      var init, last := pieces[..|pieces| - 1], pieces[|pieces| - 1];
      Joined(init, k) + if last.Feed? && last.call == k && k < |Starts(init)| then last.fragment else ""
  }

  /** How many calls start before the text, -1 without text. */
  function TextSlot(pieces: seq<Piece>): int {
    if pieces == [] then -1
    else
      var init, last := pieces[..|pieces| - 1], pieces[|pieces| - 1];
      if TextSlot(init) < 0 && last.BeginText? then |Starts(init)| else TextSlot(init)
  }

  /** The turn holds each call, with its fragments joined, in its place. */
  ghost predicate HoldsCalls(t: Turn, pieces: seq<Piece>) {
    var starts, slot := Starts(pieces), TextSlot(pieces);
    && t.textPos == slot && -1 <= slot <= |starts| && |t.items| == |starts| + (if slot >= 0 then 1 else 0)
    && forall k | 0 <= k < |starts| :: HoldsCall(t, Place(slot, k), starts[k], Joined(pieces, k))
  }

  predicate HoldsCall(t: Turn, p: nat, start: (string, string), joined: string) {
    IsCall(t, p) && t.items[p].callId == start.0 && t.items[p].name == start.1 && t.items[p].args == joined
  }

  lemma PiecesSnoc(pieces: seq<Piece>, last: Piece)
    ensures Starts(pieces + [last]) == Starts(pieces) + match last case Start(id, name) => [(id, name)] case _ => []
    ensures TextSlot(pieces + [last]) == if TextSlot(pieces) < 0 && last.BeginText? then |Starts(pieces)|
            else TextSlot(pieces)
    ensures forall k: nat :: Joined(pieces + [last], k)
                == Joined(pieces, k) + if last.Feed? && last.call == k && k < |Starts(pieces)| then last.fragment
                else ""
  {
    assert (pieces + [last])[..|pieces|] == pieces;
  }

  lemma {:induction false} NotJoined(pieces: seq<Piece>, k: nat)
    requires k >= |Starts(pieces)|
    ensures Joined(pieces, k) == ""
    decreases |pieces|
  {
    if pieces != [] { NotJoined(pieces[..|pieces| - 1], k); }
  }

  lemma PieceHolds(names: ToolNames, t: Turn, pieces: seq<Piece>, last: Piece)
    requires HoldsCalls(t, pieces)
    ensures HoldsCalls(Act(names, t, PieceAction(t, last)).0, pieces + [last])
  {
    hide Starts, Joined, TextSlot, ToolDelta, CallAdded;
    PiecesSnoc(pieces, last);
    NotJoined(pieces, |Starts(pieces)|);
    var t' := Act(names, t, PieceAction(t, last)).0;
    var starts, slot := Starts(pieces + [last]), TextSlot(pieces + [last]);
    forall k | 0 <= k < |starts| ensures HoldsCall(t', Place(slot, k), starts[k], Joined(pieces + [last], k)) {
      assert Joined(pieces, k) + "" == Joined(pieces, k);
      if k < |Starts(pieces)| {
        assert HoldsCall(t, Place(t.textPos, k), starts[k], Joined(pieces, k));
        assert Place(slot, k) == Place(t.textPos, k);
      }
    }
  }

  lemma {:induction false} PlayHoldsCalls(names: ToolNames, id: string, pieces: seq<Piece>)
    ensures HoldsCalls(Play(names, NewTurn(id), pieces).0, pieces)
    decreases |pieces|
  {
    if pieces != [] {
      hide HoldsCalls, Act, Starts, Joined, TextSlot;
      var init, last := pieces[..|pieces| - 1], pieces[|pieces| - 1];
      PlayHoldsCalls(names, id, init);
      PieceHolds(names, Play(names, NewTurn(id), init).0, init, last);
      assert init + [last] == pieces;
    }
  }

  lemma {:induction false} SlotIsText(names: ToolNames, id: string, pieces: seq<Piece>)
    ensures var t := Play(names, NewTurn(id), pieces).0;
            t.textPos >= 0 ==> t.textPos < |t.items| && t.items[t.textPos].Text?
    decreases |pieces|
  {
    hide ToolDelta, CallAdded;
    if pieces != [] { SlotIsText(names, id, pieces[..|pieces| - 1]); }
  }

  /** In the event sequence of a turn, each custom call's input arrives at its
      output index. */
  lemma {:induction false} CanonicalInputs(names: ToolNames, id: string, model: string, pieces: seq<Piece>,
                                           status: string, usage: ResponsesUsage, k: nat)
    requires names.unwrap == Json.UnwrapCustomToolInput && k < |Starts(pieces)|
             && Identity(names, Starts(pieces)[k].1).custom
    ensures SpellsIff(Canonical(names, id, model, pieces, status, usage), Place(TextSlot(pieces), k), Joined(pieces, k))
  {
    hide Acts, Play, Terminal, Starts, Joined, TextSlot, Json.UnwrapCustomToolInput, Json.WrappedInput, C.Input,
         DeltasAt, DoneAt;
    var p := Place(TextSlot(pieces), k);
    PlayHoldsCalls(names, id, pieces);
    assert HoldsCall(Play(names, NewTurn(id), pieces).0, p, Starts(pieces)[k], Joined(pieces, k));
    PlayIsActs(names, NewTurn(id), pieces);
    DeltasSpellTheDoneInputIff(names, id, PlayedActions(names, NewTurn(id), pieces), p, model, status, usage);
    var (t, events) := Play(names, NewTurn(id), pieces);
    var rest := events + Terminal(names, t, model, status, usage);
    DeltasAppend([Created(id)], rest, p);
    DeltasOne(Created(id), p);
    CreatedIsNotDone(id, p);
    assert [] + DeltasAt(rest, p) == DeltasAt(rest, p);
    assert [Created(id)] + events + Terminal(names, t, model, status, usage) == [Created(id)] + rest;
  }

  lemma CreatedIsNotDone(id: string, p: int)
    ensures DoneAt([Created(id)], p) == None
  {
    assert [Created(id)][..0] == [];
  }

  /** From Chat Completions: whatever else the chunks interleave, and however they
      cut the arguments, the wrapper of a custom tool's input never reaches the client. */
  lemma ChatInputs(names: ToolNames, chunks: seq<ChatChunks.Chunk>, trailer: seq<ChatChunks.Chunk>, k: nat)
    requires Chat.WellFormed(chunks, trailer) && names.unwrap == Json.UnwrapCustomToolInput
    requires var pieces := Chat.Pieces(chunks); k < |Starts(pieces)| && Identity(names, Starts(pieces)[k].1).custom
    ensures var pieces := Chat.Pieces(chunks);
            SpellsIff(Chat.StreamEvents(names, chunks, trailer), Place(TextSlot(pieces), k), Joined(pieces, k))
  {
    hide Canonical, Starts, Joined, TextSlot, SpellsIff, Chat.StreamEvents, Chat.Pieces;
    Chat.ChatIsCanonical(names, chunks, trailer);
    CanonicalInputs(names, chunks[0].id, chunks[0].model, Chat.Pieces(chunks),
                    ResponseStatusFromFinish(chunks[|chunks| - 1].choices[0].finish),
                    C2R.UsageOf(Chat.UsageAtTerminal(chunks, trailer)), k);
  }

  /** From Anthropic Messages, likewise. */
  lemma MessagesInputs(names: ToolNames, st: Messages.Stream, k: nat)
    requires Messages.WellFormed(st.blocks) && names.unwrap == Json.UnwrapCustomToolInput
    requires var pieces := Messages.Pieces(st.blocks);
             k < |Starts(pieces)| && Identity(names, Starts(pieces)[k].1).custom
    ensures var pieces := Messages.Pieces(st.blocks);
            SpellsIff(Messages.StreamEvents(names, st), Place(TextSlot(pieces), k), Joined(pieces, k))
  {
    hide Canonical, Starts, Joined, TextSlot, SpellsIff, Messages.StreamEvents, Messages.Pieces, Messages.FinalUsage;
    Messages.MessagesIsCanonical(names, st);
    CanonicalInputs(names, st.id, st.model, Messages.Pieces(st.blocks), ResponseStatusFromClaudeStop(st.stopReason),
                    Messages.FinalUsage(st), k);
  }
}
