/** What a Responses client receives for each output item of a turn: its
    announcement, its deltas and its completion, event by event. */
module ResponsesItems {
  import opened Basics
  import opened ResponseTools
  import opened Wire
  import opened ResponsesTurn
  import opened TurnPieces
  import opened StreamedInputs
  import Json

  // ---- the events of one output index ----

  function IndexOf(e: Event): Option<int> {
    match e
    case Created(_) => None
    case ItemAdded(i, _) => Some(i)
    case TextDelta(_, i, _) => Some(i)
    case ArgsDelta(_, i, _) => Some(i)
    case CustomInputDelta(_, i, _) => Some(i)
    case TextDone(_, i, _) => Some(i)
    case ContentPartDone(_, i, _) => Some(i)
    case ArgsDone(_, i, _, _) => Some(i)
    case CustomInputDone(_, i, _) => Some(i)
    case ItemDone(i, _) => Some(i)
    case Completed(_, _, _, _, _) => None
  }

  function At(events: seq<Event>, p: int): seq<Event> {
    if events == [] then []
    else
      At(events[..|events| - 1], p) +
      if IndexOf(events[|events| - 1]) == Some(p) then [events[|events| - 1]] else []
  }

  lemma {:induction false} AtAppend(a: seq<Event>, b: seq<Event>, p: int)
    ensures At(a + b, p) == At(a, p) + At(b, p)
    decreases |b|
  {
    if b == [] {
      assert a + b == a;
    } else {
      assert (a + b)[..|a + b| - 1] == a + b[..|b| - 1];
      AtAppend(a, b[..|b| - 1], p);
    }
  }

  lemma AtOne(e: Event, p: int)
    ensures At([e], p) == if IndexOf(e) == Some(p) then [e] else []
  {
    assert [e][..0] == [];
  }

  // ---- what the pieces say ----

  /** The text fragments, in order. */
  function Texts(pieces: seq<Piece>): seq<string> {
    if pieces == [] then []
    else Texts(pieces[..|pieces| - 1]) + match pieces[|pieces| - 1] case Say(text) => [text] case _ => []
  }

  /** The fragments of the k-th call, in order. */
  function Parts(pieces: seq<Piece>, k: nat): seq<string> {
    if pieces == [] then []
    else
      var init, last := pieces[..|pieces| - 1], pieces[|pieces| - 1];
      Parts(init, k) + if last.Feed? && last.call == k && k < |Starts(init)| then [last.fragment] else []
  }

  /** No text before its beginning. */
  predicate TextIsBegun(pieces: seq<Piece>) {
    pieces == []
    || (TextIsBegun(pieces[..|pieces| - 1])
        && (pieces[|pieces| - 1].Say? ==> TextSlot(pieces[..|pieces| - 1]) >= 0))
  }

  lemma PartsSnoc(pieces: seq<Piece>, last: Piece)
    ensures Texts(pieces + [last]) == Texts(pieces) + match last case Say(text) => [text] case _ => []
    ensures forall k: nat :: Parts(pieces + [last], k)
                == Parts(pieces, k) +
                   if last.Feed? && last.call == k && k < |Starts(pieces)| then [last.fragment] else []
    ensures TextIsBegun(pieces + [last]) <==> TextIsBegun(pieces) && (last.Say? ==> TextSlot(pieces) >= 0)
  {
    assert (pieces + [last])[..|pieces|] == pieces;
  }

  lemma {:induction false} NoParts(pieces: seq<Piece>, k: nat)
    requires k >= |Starts(pieces)|
    ensures Parts(pieces, k) == []
    decreases |pieces|
  {
    if pieces != [] { NoParts(pieces[..|pieces| - 1], k); }
  }

  lemma {:induction false} JoinedParts(pieces: seq<Piece>, k: nat)
    ensures Joined(pieces, k) == Concat(Parts(pieces, k))
    decreases |pieces|
  {
    if pieces != [] {
      var init := pieces[..|pieces| - 1];
      JoinedParts(init, k);
      var parts := Parts(pieces, k);
      if parts != Parts(init, k) { assert parts[..|parts| - 1] == Parts(init, k); }
      assert Joined(init, k) + "" == Joined(init, k) && Parts(init, k) + [] == Parts(init, k);
    }
  }

  // ---- what the client should get ----

  function TextDeltas(id: string, p: int, texts: seq<string>): (r: seq<Event>) {
    seq(|texts|, i requires 0 <= i < |texts| => TextDelta(id, p, texts[i]))
  }

  function ArgsDeltas(id: string, p: int, parts: seq<string>): (r: seq<Event>) {
    seq(|parts|, i requires 0 <= i < |parts| => ArgsDelta(id, p, parts[i]))
  }

  /** The item of a call under the name and namespace its tool was declared with. */
  function FunctionItem(id: ToolIdentity, callId: string, arguments: string): OutItem {
    Call(RespItem("function_call", callId, id.name, id.namespace, arguments, None, None, ""))
  }

  function CustomItem(id: ToolIdentity, callId: string, input: string): OutItem {
    Call(RespItem("custom_tool_call", callId, id.name, id.namespace, "", Some(input), None, ""))
  }

  function DeclaredAs(names: ToolNames, name: string): ToolIdentity {
    if name in names.table then names.table[name] else ToolIdentity(name, "", false)
  }

  /** What a client has received for a call that is not completed: the announcement
      and one delta for each fragment, or for a custom tool input deltas only. */
  predicate CallSoFar(names: ToolNames, got: seq<Event>, p: int, callId: string, name: string, parts: seq<string>) {
    var id := DeclaredAs(names, name);
    if !id.custom then got == [ItemAdded(p, FunctionItem(id, callId, ""))] + ArgsDeltas(callId, p, parts)
    else
      && got != [] && got[0] == ItemAdded(p, CustomItem(id, callId, names.unwrap("")))
      && forall j | 1 <= j < |got| :: got[j].CustomInputDelta? && got[j].itemId == callId && got[j].index == p
  }

  predicate TextSoFar(got: seq<Event>, p: int, id: string, texts: seq<string>) {
    got == [ItemAdded(p, Message(id, []))] + TextDeltas(id, p, texts)
  }

  /** The number of output items. */
  function Width(pieces: seq<Piece>): nat {
    |Starts(pieces)| + if TextSlot(pieces) >= 0 then 1 else 0
  }

  ghost predicate SentSoFar(names: ToolNames, id: string, events: seq<Event>, pieces: seq<Piece>) {
    var starts, slot := Starts(pieces), TextSlot(pieces);
    && (slot >= 0 ==> TextSoFar(At(events, slot), slot, id, Texts(pieces)))
    && (slot < 0 ==> Texts(pieces) == [])
    && (forall k | 0 <= k < |starts| :: CallSentSoFar(names, events, pieces, k))
    && (forall p | p < 0 || p >= Width(pieces) :: At(events, p) == [])
  }

  predicate CallSentSoFar(names: ToolNames, events: seq<Event>, pieces: seq<Piece>, k: nat)
    requires k < |Starts(pieces)|
  {
    var p := Place(TextSlot(pieces), k);
    CallSoFar(names, At(events, p), p, Starts(pieces)[k].0, Starts(pieces)[k].1, Parts(pieces, k))
  }

  // ---- one piece at a time ----

  lemma OpeningOf(names: ToolNames, p: int, callId: string, name: string)
    ensures var id := DeclaredAs(names, name);
            CallAdded(names, p, callId, name) ==
            ItemAdded(p, if id.custom then CustomItem(id, callId, names.unwrap("")) else FunctionItem(id, callId, ""))
  {
  }

  /** Fragments of a function are forwarded as they are. */
  lemma MoreOfCall(names: ToolNames, got: seq<Event>, p: int, callId: string, name: string, parts: seq<string>,
                   fragment: string, accumulated: string, emitted: nat)
    requires CallSoFar(names, got, p, callId, name, parts)
    ensures var more := ToolDelta(names, callId, p, name, fragment, accumulated, emitted).0;
            && (forall q | q != p :: At(more, q) == []) && At(more, p) == more
            && CallSoFar(names, got + more, p, callId, name, parts + [fragment])
  {
    hide At;
    DeltaIs(names, p, callId, name, fragment, accumulated, emitted);
    hide ToolDelta;
    var more := ToolDelta(names, callId, p, name, fragment, accumulated, emitted).0;
    if more == [] {
      Nowhere();
    } else {
      assert more == [more[0]];
      forall q ensures At(more, q) == if q == p then more else [] { AtOne(more[0], q); }
    }
    hide FunctionItem, CustomItem, IndexOf;
    if !DeclaredAs(names, name).custom {
      assert ArgsDeltas(callId, p, parts + [fragment]) == ArgsDeltas(callId, p, parts) + more;
      assert got + more == got[..1] + (got[1..] + more);
    }
  }

  lemma Nowhere()
    ensures forall p :: At([], p) == []
  {
  }

  lemma DeltaIs(names: ToolNames, p: int, callId: string, name: string, fragment: string, accumulated: string,
                emitted: nat)
    ensures var more := ToolDelta(names, callId, p, name, fragment, accumulated, emitted).0;
            if DeclaredAs(names, name).custom then
              |more| <= 1 && forall e | e in more :: e.CustomInputDelta? && e.itemId == callId && e.index == p
            else more == [ArgsDelta(callId, p, fragment)]
  {
  }

  lemma Splits(events: seq<Event>, more: seq<Event>)
    ensures forall p :: At(events + more, p) == At(events, p) + At(more, p)
  {
    forall p ensures At(events + more, p) == At(events, p) + At(more, p) { AtAppend(events, more, p); }
  }

  /** A call for which nothing is sent stays as it is. */
  lemma Untouched(names: ToolNames, events: seq<Event>, more: seq<Event>, pieces: seq<Piece>, pieces': seq<Piece>,
                  k: nat)
    requires k < |Starts(pieces)| && k < |Starts(pieces')| && Starts(pieces')[k] == Starts(pieces)[k]
    requires Parts(pieces', k) == Parts(pieces, k) && Place(TextSlot(pieces'), k) == Place(TextSlot(pieces), k)
    requires CallSentSoFar(names, events, pieces, k) && At(more, Place(TextSlot(pieces), k)) == []
    ensures CallSentSoFar(names, events + more, pieces', k)
  {
    hide Starts, Parts, TextSlot, At, CallSoFar;
    var p := Place(TextSlot(pieces), k);
    AtAppend(events, more, p);
    assert At(events, p) + [] == At(events, p);
  }

  lemma BeginSends(names: ToolNames, t: Turn, pieces: seq<Piece>, events: seq<Event>)
    requires HoldsCalls(t, pieces) && SentSoFar(names, t.id, events, pieces)
    ensures SentSoFar(names, t.id, events + Act(names, t, OpenText).1, pieces + [BeginText])
  {
    hide Starts, Parts, Texts, TextSlot, At, CallSoFar, Joined;
    PiecesSnoc(pieces, BeginText);
    PartsSnoc(pieces, BeginText);
    var more := Act(names, t, OpenText).1;
    Splits(events, more);
    var pieces' := pieces + [BeginText];
    if more == [] {
      assert events + more == events;
      Nowhere();
    } else {
      forall p ensures At(more, p) == if p == |t.items| then more else [] { AtOne(more[0], p); }
      assert TextDeltas(t.id, |t.items|, []) == [];
    }
    forall k | 0 <= k < |Starts(pieces')| ensures CallSentSoFar(names, events + more, pieces', k) {
      assert CallSentSoFar(names, events, pieces, k);
      assert Parts(pieces', k) == Parts(pieces, k) + [];
      Untouched(names, events, more, pieces, pieces', k);
    }
  }

  lemma SaySends(names: ToolNames, t: Turn, pieces: seq<Piece>, events: seq<Event>, text: string)
    requires HoldsCalls(t, pieces) && SentSoFar(names, t.id, events, pieces) && TextSlot(pieces) >= 0
    ensures SentSoFar(names, t.id, events + Act(names, t, AddText(text)).1, pieces + [Say(text)])
  {
    hide Starts, Parts, Texts, TextSlot, At, CallSoFar, Joined;
    PiecesSnoc(pieces, Say(text));
    PartsSnoc(pieces, Say(text));
    var slot, texts := TextSlot(pieces), Texts(pieces);
    var more := Act(names, t, AddText(text)).1;
    Splits(events, more);
    forall p ensures At(more, p) == if p == slot then more else [] { AtOne(more[0], p); }
    assert TextDeltas(t.id, slot, texts + [text]) == TextDeltas(t.id, slot, texts) + more;
    var pieces' := pieces + [Say(text)];
    forall k | 0 <= k < |Starts(pieces')| ensures CallSentSoFar(names, events + more, pieces', k) {
      assert CallSentSoFar(names, events, pieces, k) && Place(slot, k) != slot;
      assert Parts(pieces', k) == Parts(pieces, k) + [];
      Untouched(names, events, more, pieces, pieces', k);
    }
  }

  lemma StartSends(names: ToolNames, t: Turn, pieces: seq<Piece>, events: seq<Event>, id: string, name: string)
    requires HoldsCalls(t, pieces) && SentSoFar(names, t.id, events, pieces)
    ensures SentSoFar(names, t.id, events + Act(names, t, OpenTool(id, name)).1, pieces + [Start(id, name)])
  {
    hide Starts, Parts, Texts, TextSlot, At, Joined, CallAdded, CustomItem, FunctionItem;
    PiecesSnoc(pieces, Start(id, name));
    PartsSnoc(pieces, Start(id, name));
    var n, width := |Starts(pieces)|, Width(pieces);
    NoParts(pieces, n);
    OpeningOf(names, width, id, name);
    var more := Act(names, t, OpenTool(id, name)).1;
    Splits(events, more);
    forall p ensures At(more, p) == if p == width then more else [] { AtOne(more[0], p); }
    assert ArgsDeltas(id, width, []) == [];
    var pieces' := pieces + [Start(id, name)];
    assert Place(TextSlot(pieces), n) == width && Starts(pieces')[n] == (id, name) && Parts(pieces', n) == [];
    hide CallSoFar;
    forall k | 0 <= k < |Starts(pieces')| ensures CallSentSoFar(names, events + more, pieces', k) {
      if k < n {
        assert CallSentSoFar(names, events, pieces, k) && Starts(pieces')[k] == Starts(pieces)[k];
        assert Parts(pieces', k) == Parts(pieces, k) + [];
        Untouched(names, events, more, pieces, pieces', k);
      }
    }
  }

  lemma FeedSends(names: ToolNames, t: Turn, pieces: seq<Piece>, events: seq<Event>, k: nat, f: string)
    requires HoldsCalls(t, pieces) && SentSoFar(names, t.id, events, pieces)
    ensures SentSoFar(names, t.id, events + Act(names, t, PieceAction(t, Feed(k, f))).1, pieces + [Feed(k, f)])
  {
    hide Starts, Parts, Texts, TextSlot, At, Joined, CallSoFar, ToolDelta, TextSoFar;
    Nowhere();
    PiecesSnoc(pieces, Feed(k, f));
    PartsSnoc(pieces, Feed(k, f));
    var p := Place(TextSlot(pieces), k);
    var more := Act(names, t, PieceAction(t, Feed(k, f))).1;
    var pieces' := pieces + [Feed(k, f)];
    Splits(events, more);
    if k < |Starts(pieces)| {
      var start := Starts(pieces)[k];
      assert HoldsCall(t, p, start, Joined(pieces, k)) && CallSentSoFar(names, events, pieces, k);
      MoreOfCall(names, At(events, p), p, start.0, start.1, Parts(pieces, k), f, t.items[p].args + f,
                 t.items[p].emitted);
    } else {
      assert more == [] && events + more == events;
    }
    var slot := TextSlot(pieces);
    assert p != slot && At(more, slot) == [] && At(events, slot) + [] == At(events, slot);
    assert Texts(pieces') == Texts(pieces) + [] == Texts(pieces);
    assert slot >= 0 ==> TextSoFar(At(events + more, slot), slot, t.id, Texts(pieces'));
    assert slot < 0 ==> Texts(pieces') == [];
    forall q | q < 0 || q >= Width(pieces') ensures At(events + more, q) == [] {
      assert q != p || more == [];
    }
    forall j | 0 <= j < |Starts(pieces')| ensures CallSentSoFar(names, events + more, pieces', j) {
      assert CallSentSoFar(names, events, pieces, j);
      if j != k || k >= |Starts(pieces)| {
        assert Parts(pieces', j) == Parts(pieces, j) + [];
        Untouched(names, events, more, pieces, pieces', j);
      }
    }
  }

  /** What one piece sends. */
  lemma PieceSends(names: ToolNames, t: Turn, pieces: seq<Piece>, events: seq<Event>, last: Piece)
    requires HoldsCalls(t, pieces) && SentSoFar(names, t.id, events, pieces)
    requires last.Say? ==> TextSlot(pieces) >= 0
    ensures SentSoFar(names, t.id, events + Act(names, t, PieceAction(t, last)).1, pieces + [last])
  {
    hide SentSoFar, HoldsCalls, Act, TextSlot;
    match last
    case BeginText => BeginSends(names, t, pieces, events);
    case Say(text) => SaySends(names, t, pieces, events, text);
    case Start(id, name) => StartSends(names, t, pieces, events, id, name);
    case Feed(k, f) => FeedSends(names, t, pieces, events, k, f);
  }

  lemma NothingSent(names: ToolNames, id: string)
    ensures SentSoFar(names, id, [], [])
  {
    assert Starts([]) == [] && TextSlot([]) == -1 && Texts([]) == [];
  }

  lemma {:induction false} PlaySends(names: ToolNames, id: string, pieces: seq<Piece>)
    requires TextIsBegun(pieces)
    ensures var (t, events) := Play(names, NewTurn(id), pieces);
            t.id == id && HoldsCalls(t, pieces) && SentSoFar(names, id, events, pieces)
    decreases |pieces|
  {
    hide SentSoFar, HoldsCalls, TextSlot, Act, PieceAction, Starts;
    PlayHoldsCalls(names, id, pieces);
    if pieces == [] {
      NothingSent(names, id);
    } else {
      var init, last := pieces[..|pieces| - 1], pieces[|pieces| - 1];
      PlaySends(names, id, init);
      var (t, events) := Play(names, NewTurn(id), init);
      PieceSends(names, t, init, events, last);
      KeepsId(names, t, PieceAction(t, last));
      assert init + [last] == pieces;
    }
  }

  lemma KeepsId(names: ToolNames, t: Turn, a: Action)
    ensures Act(names, t, a).0.id == t.id
  {
    hide ToolDelta, CallAdded;
  }

  // ---- the completions ----

  lemma CompletionIs(p: int, q: int, item: OutItem)
    ensures At(ItemCompletion(p, item), q) == if p == q then ItemCompletion(p, item) else []
  {
    hide Concat;
    var c := ItemCompletion(p, item);
    forall n | 0 <= n <= |c| ensures At(c[..n], q) == if p == q then c[..n] else [] {
      CompletionPrefix(c, p, q, n);
    }
    assert c[..|c|] == c;
  }

  lemma {:induction false} CompletionPrefix(c: seq<Event>, p: int, q: int, n: nat)
    requires n <= |c| && forall k | 0 <= k < |c| :: IndexOf(c[k]) == Some(p)
    ensures At(c[..n], q) == if p == q then c[..n] else []
  {
    if n > 0 {
      CompletionPrefix(c, p, q, n - 1);
      assert c[..n][..n - 1] == c[..n - 1];
    }
  }

  lemma {:induction false} CompletionsAre(items: seq<OutItem>, p: int)
    ensures At(Completions(items), p) == if 0 <= p < |items| then ItemCompletion(p, items[p]) else []
    decreases |items|
  {
    hide ItemCompletion;
    if items != [] {
      var n := |items| - 1;
      CompletionsAre(items[..n], p);
      CompletionIs(n, p, items[n]);
      AtAppend(Completions(items[..n]), ItemCompletion(n, items[n]), p);
    }
  }

  // ---- the whole of a turn ----

  /** Arguments that say nothing stand for the empty object. */
  function FinalArguments(parts: seq<string>): string {
    var joined := Concat(parts);
    if TrimSpace(joined) == "" || TrimSpace(joined) == "null" then "{}" else joined
  }

  /** A whole call: announced, its fragments as they came, then the same arguments in
      the done event, the completed item and the output.  For a custom tool it is the
      input that the arguments wrap, and no arguments ever show. */
  predicate ReadsCall(names: ToolNames, got: seq<Event>, p: int, callId: string, name: string, parts: seq<string>,
                      rendered: OutItem) {
    var id, args := DeclaredAs(names, name), FinalArguments(parts);
    if !id.custom then
      && rendered == FunctionItem(id, callId, args)
      && got == [ItemAdded(p, FunctionItem(id, callId, ""))] + ArgsDeltas(callId, p, parts) +
                [ArgsDone(callId, p, id.name, args), ItemDone(p, rendered)]
    else
      var n, input := |got|, names.unwrap(args);
      && rendered == CustomItem(id, callId, input)
      && n >= 3 && got[0] == ItemAdded(p, CustomItem(id, callId, names.unwrap("")))
      && (forall j | 1 <= j < n - 2 :: got[j].CustomInputDelta? && got[j].itemId == callId && got[j].index == p)
      && got[n - 2] == CustomInputDone(callId, p, input) && got[n - 1] == ItemDone(p, rendered)
  }

  predicate ReadsMessage(got: seq<Event>, p: int, id: string, texts: seq<string>, rendered: OutItem) {
    var text := Concat(texts);
    && rendered == Message(id, [text])
    && got == [ItemAdded(p, Message(id, []))] + TextDeltas(id, p, texts) +
              [TextDone(id, p, text), ContentPartDone(id, p, text), ItemDone(p, rendered)]
  }

  /** The events of a turn, whole: response.created, the events of its items, each
      under its final position, and response.completed with all items. */
  ghost predicate ReadsTurn(names: ToolNames, events: seq<Event>, pieces: seq<Piece>, id: string, model: string,
                            status: string, usage: ResponsesUsage) {
    var starts, slot, n := Starts(pieces), TextSlot(pieces), |events|;
    && n >= 2 && events[0] == Created(id) && events[n - 1].Completed?
    && var output := events[n - 1].output;
    && events[n - 1] == Completed(id, model, status, usage, output) && |output| == Width(pieces)
    && (forall j | 0 < j < n - 1 :: IndexOf(events[j]).Some? && 0 <= IndexOf(events[j]).value < |output|)
    && -1 <= slot <= |starts|
    && (slot >= 0 ==> ReadsMessage(At(events, slot), slot, id, Texts(pieces), output[slot]))
    && (slot < 0 ==> Texts(pieces) == [])
    && forall k | 0 <= k < |starts| :: CallIsRead(names, events, pieces, k, output)
  }

  predicate CallIsRead(names: ToolNames, events: seq<Event>, pieces: seq<Piece>, k: nat, output: seq<OutItem>)
    requires k < |Starts(pieces)|
  {
    var p := Place(TextSlot(pieces), k);
    p < |output| && ReadsCall(names, At(events, p), p, Starts(pieces)[k].0, Starts(pieces)[k].1, Parts(pieces, k),
                              output[p])
  }

  lemma TextIs(names: ToolNames, id: string, pieces: seq<Piece>)
    requires TextIsBegun(pieces)
    ensures Play(names, NewTurn(id), pieces).0.text == Concat(Texts(pieces))
    decreases |pieces|
  {
    if pieces != [] {
      hide TextSlot;
      var init, last := pieces[..|pieces| - 1], pieces[|pieces| - 1];
      TextIs(names, id, init);
      TextMore(names, Play(names, NewTurn(id), init).0, PieceAction(Play(names, NewTurn(id), init).0, last));
      var texts := Texts(pieces);
      if last.Say? {
        assert texts[..|texts| - 1] == Texts(init);
      } else {
        assert texts == Texts(init);
      }
    }
  }

  lemma TextMore(names: ToolNames, t: Turn, a: Action)
    ensures Act(names, t, a).0.text == t.text + match a case AddText(f) => f case _ => ""
  {
    hide ToolDelta, CallAdded;
    assert t.text + "" == t.text;
  }

  /** The completion of a call's item. */
  lemma CallCompletes(names: ToolNames, got: seq<Event>, p: int, callId: string, name: string, parts: seq<string>,
                      item: OutItem)
    requires CallSoFar(names, got, p, callId, name, parts)
    requires item == Call(RenderedCall(names, callId, name, DefaultArgs(Concat(parts))))
    ensures ReadsCall(names, got + ItemCompletion(p, item), p, callId, name, parts, item)
  {
    hide Concat, TrimSpace;
    var id, args := DeclaredAs(names, name), FinalArguments(parts);
    assert DefaultArgs(Concat(parts)) == args;
    hide FinalArguments, DefaultArgs;
  }

  lemma {:induction false} PlayIndexes(names: ToolNames, id: string, pieces: seq<Piece>)
    ensures var events := Play(names, NewTurn(id), pieces).1;
            forall e | e in events :: IndexOf(e).Some?
    decreases |pieces|
  {
    if pieces != [] {
      hide Act, PieceAction;
      var init, last := pieces[..|pieces| - 1], pieces[|pieces| - 1];
      PlayIndexes(names, id, init);
      var t := Play(names, NewTurn(id), init).0;
      ActIndexes(names, t, PieceAction(t, last));
    }
  }

  lemma ActIndexes(names: ToolNames, t: Turn, a: Action)
    ensures forall e | e in Act(names, t, a).1 :: IndexOf(e).Some?
  {
  }

  lemma {:induction false} CompletionIndexes(items: seq<OutItem>)
    ensures forall e | e in Completions(items) :: IndexOf(e).Some?
    decreases |items|
  {
    hide Concat;
    if items != [] { CompletionIndexes(items[..|items| - 1]); }
  }

  /** Events of an index are among those of the index. */
  lemma {:induction false} NotOutside(events: seq<Event>, j: nat)
    requires j < |events| && IndexOf(events[j]).Some?
    ensures At(events, IndexOf(events[j]).value) != []
    decreases |events|
  {
    if j < |events| - 1 { NotOutside(events[..|events| - 1], j); }
  }

  /** For every turn, with its calls and text interleaved in any way. */
  lemma {:induction false} TurnIsRead(names: ToolNames, id: string, model: string, pieces: seq<Piece>, status: string,
                                      usage: ResponsesUsage)
    requires TextIsBegun(pieces)
    ensures ReadsTurn(names, Canonical(names, id, model, pieces, status, usage), pieces, id, model, status, usage)
  {
    hide Play, Completions, Starts, Parts, Texts, TextSlot, At, Joined, TextIsBegun, ItemCompletion, ReadsCall,
         RenderedCall, DefaultArgs, CallSoFar, Concat;
    var (t, events) := Play(names, NewTurn(id), pieces);
    PlaySends(names, id, pieces);
    TextIs(names, id, pieces);
    PlayIndexes(names, id, pieces);
    var output := Output(names, t);
    CompletionIndexes(output);
    var all := Canonical(names, id, model, pieces, status, usage);
    var end := Completed(id, model, status, usage, output);
    var middle := events + Completions(output);
    assert all == [Created(id)] + middle + [end];
    forall p ensures At(all, p) == At(events, p) + if 0 <= p < |output| then ItemCompletion(p, output[p]) else [] {
      AtAppend([Created(id)] + middle, [end], p);
      AtAppend([Created(id)], middle, p);
      AtAppend(events, Completions(output), p);
      AtOne(Created(id), p);
      AtOne(end, p);
      CompletionsAre(output, p);
      var q := At(middle, p);
      assert [] + q + [] == q;
    }
    forall j | 0 < j < |all| - 1 ensures IndexOf(all[j]).Some? && 0 <= IndexOf(all[j]).value < |output| {
      assert all[j] == middle[j - 1];
      assert all[j] in events || all[j] in Completions(output);
      NotOutside(all, j);
    }
    forall k | 0 <= k < |Starts(pieces)| ensures CallIsRead(names, all, pieces, k, output) {
      var p, start := Place(TextSlot(pieces), k), Starts(pieces)[k];
      assert HoldsCall(t, p, start, Joined(pieces, k)) && CallSentSoFar(names, events, pieces, k);
      JoinedParts(pieces, k);
      CallCompletes(names, At(events, p), p, start.0, start.1, Parts(pieces, k), output[p]);
    }
    var slot := TextSlot(pieces);
    if slot >= 0 {
      SlotIsText(names, id, pieces);
      assert output[slot] == Rendered(names, t, Text);
      MessageCompletes(t, output, At(events, slot), slot, Texts(pieces));
    }
  }

  lemma MessageCompletes(t: Turn, output: seq<OutItem>, got: seq<Event>, p: int, texts: seq<string>)
    requires 0 <= p < |output| && output[p] == Message(t.id, [t.text]) && t.text == Concat(texts)
    requires TextSoFar(got, p, t.id, texts)
    ensures ReadsMessage(got + ItemCompletion(p, output[p]), p, t.id, texts, output[p])
  {
    var item := output[p];
    assert Concat(item.content) == t.text by {
      assert [t.text][..0] == [];
      assert "" + t.text == t.text;
    }
    hide Concat;
    assert ItemCompletion(p, item) == [TextDone(t.id, p, t.text), ContentPartDone(t.id, p, t.text), ItemDone(p, item)];
  }
}
