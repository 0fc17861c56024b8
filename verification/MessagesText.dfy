/** The text of a Messages stream: sent in order of arrival, rendered in order of the
    upstream's block indexes, and told to the client under the index of an item. */
module MessagesText {
  import opened Basics
  import opened ResponseTools
  import opened Wire
  import opened ResponsesTurn
  import opened MessagesToResponses
  import opened MessagesPositions
  import Meaning = MessagesMeaning
  import Pieces = MessagesPieces
  import M = MessagesEvents

  // ---- what is sent and what is rendered ----

  /** The text a client joins from the deltas. */
  function SentText(events: seq<Event>): string {
    if events == [] then ""
    else
      SentText(events[..|events| - 1]) +
      match events[|events| - 1]
      case TextDelta(_, _, delta) => delta
      case _ => ""
  }

  /** The text of the messages in an output array. */
  function RenderedText(output: seq<OutItem>): string {
    if output == [] then ""
    else
      RenderedText(output[..|output| - 1]) +
      match output[|output| - 1]
      case Message(_, content) => Concat(content)
      case Call(_) => ""
  }

  // ---- the fragments of a stream, read off its events alone ----

  datatype Fragment = Fragment(index: int, text: string)

  /** The non-empty text fragments, in order of arrival. */
  function Fragments(events: seq<M.Event>): seq<Fragment> {
    if events == [] then []
    else
      Fragments(events[..|events| - 1]) +
      match events[|events| - 1]
      case TextFragment(index, text) => if text == "" then [] else [Fragment(index, text)]
      case _ => []
  }

  /** The text blocks started so far. */
  function TextBlocks(events: seq<M.Event>): set<int> {
    if events == [] then {}
    else
      TextBlocks(events[..|events| - 1]) +
      match events[|events| - 1]
      case BlockStart(index, kind, _, _) => if kind == "text" then {index} else {}
      case _ => {}
  }

  /** The non-empty fragments that go to a text block, in order of arrival. */
  function Landed(events: seq<M.Event>): seq<Fragment> {
    if events == [] then []
    else
      var init := events[..|events| - 1];
      Landed(init) +
      match events[|events| - 1]
      case TextFragment(index, text) =>
        if text == "" || index !in TextBlocks(init) then [] else [Fragment(index, text)]
      case _ => []
  }

  /** Every non-empty fragment goes to a text block that has started. */
  predicate AllLand(events: seq<M.Event>) {
    forall k | 0 <= k < |events| && events[k].TextFragment? && events[k].text != "" ::
      events[k].index in TextBlocks(events[..k])
  }

  predicate NeverDecreases(fragments: seq<Fragment>) {
    forall i, j | 0 <= i < j < |fragments| :: fragments[i].index <= fragments[j].index
  }

  function Joined(fragments: seq<Fragment>): string {
    if fragments == [] then "" else Joined(fragments[..|fragments| - 1]) + fragments[|fragments| - 1].text
  }

  /** The text of one block. */
  function TextAt(fragments: seq<Fragment>, index: int): string {
    if fragments == [] then ""
    else
      var last := fragments[|fragments| - 1];
      TextAt(fragments[..|fragments| - 1], index) + if last.index == index then last.text else ""
  }

  /** The text of some blocks, one after the other. */
  function ByBlock(fragments: seq<Fragment>, order: seq<int>): string {
    if order == [] then ""
    else ByBlock(fragments, order[..|order| - 1]) + TextAt(fragments, order[|order| - 1])
  }

  // ---- arrival order against block order ----

  lemma TextAtSnoc(fragments: seq<Fragment>, f: Fragment, index: int)
    ensures TextAt(fragments + [f], index) == TextAt(fragments, index) + if f.index == index then f.text else ""
    ensures Joined(fragments + [f]) == Joined(fragments) + f.text
  {
    assert (fragments + [f])[..|fragments|] == fragments;
  }

  lemma {:induction false} NoTextAt(fragments: seq<Fragment>, index: int)
    requires forall k | 0 <= k < |fragments| :: fragments[k].index != index
    ensures TextAt(fragments, index) == ""
    decreases |fragments|
  {
    if fragments != [] { NoTextAt(fragments[..|fragments| - 1], index); }
  }

  lemma {:induction false} SameByBlock(a: seq<Fragment>, b: seq<Fragment>, order: seq<int>)
    requires forall k | 0 <= k < |order| :: TextAt(a, order[k]) == TextAt(b, order[k])
    ensures ByBlock(a, order) == ByBlock(b, order)
    decreases |order|
  {
    if order != [] { SameByBlock(a, b, order[..|order| - 1]); }
  }

  /** A fragment for the last block of an order. */
  lemma FragmentForLast(fragments: seq<Fragment>, f: Fragment, order: seq<int>)
    requires Increasing(order) && order != [] && f.index == order[|order| - 1]
    ensures ByBlock(fragments + [f], order) == ByBlock(fragments, order) + f.text
  {
    var init, last := order[..|order| - 1], order[|order| - 1];
    TextAtSnoc(fragments, f, last);
    forall k | 0 <= k < |init| ensures TextAt(fragments + [f], init[k]) == TextAt(fragments, init[k]) {
      TextAtSnoc(fragments, f, init[k]);
      assert order[k] < last;
      assert TextAt(fragments, init[k]) + "" == TextAt(fragments, init[k]);
    }
    SameByBlock(fragments + [f], fragments, init);
    var before, own := ByBlock(fragments, init), TextAt(fragments, last);
    assert before + (own + f.text) == before + own + f.text;
  }

  /** One more fragment makes the text of the blocks that much longer; if no
      fragment so far was for a later block, it comes last there too. */
  lemma {:induction false} FragmentByBlock(fragments: seq<Fragment>, f: Fragment, order: seq<int>)
    requires Increasing(order) && f.index in order
    ensures |ByBlock(fragments + [f], order)| == |ByBlock(fragments, order)| + |f.text|
    ensures (forall k | 0 <= k < |fragments| :: fragments[k].index <= f.index) ==>
              ByBlock(fragments + [f], order) == ByBlock(fragments, order) + f.text
    decreases |order|
  {
    hide TextAt;
    var init, last := order[..|order| - 1], order[|order| - 1];
    if f.index == last {
      FragmentForLast(fragments, f, order);
    } else {
      assert order == init + [last];
      TextAtSnoc(fragments, f, last);
      FragmentByBlock(fragments, f, init);
      assert TextAt(fragments, last) + "" == TextAt(fragments, last);
      if forall k | 0 <= k < |fragments| :: fragments[k].index <= f.index {
        var k :| 0 <= k < |init| && init[k] == f.index;
        assert order[k] < last;
        NoTextAt(fragments, last);
        var before := ByBlock(fragments, init);
        assert before + f.text + "" == before + "" + f.text;
      }
    }
  }

  lemma {:induction false} NothingByBlock(order: seq<int>)
    ensures ByBlock([], order) == ""
    decreases |order|
  {
    if order != [] { NothingByBlock(order[..|order| - 1]); }
  }

  /** All text is there; it is in order of arrival if the block indexes never decrease. */
  lemma {:induction false} ArrivalIsBlockOrder(fragments: seq<Fragment>, order: seq<int>)
    requires Increasing(order) && forall k | 0 <= k < |fragments| :: fragments[k].index in order
    ensures |ByBlock(fragments, order)| == |Joined(fragments)|
    ensures NeverDecreases(fragments) ==> ByBlock(fragments, order) == Joined(fragments)
    decreases |fragments|
  {
    if fragments == [] {
      NothingByBlock(order);
    } else {
      hide Increasing;
      var init, f := fragments[..|fragments| - 1], fragments[|fragments| - 1];
      assert init + [f] == fragments;
      ArrivalIsBlockOrder(init, order);
      FragmentByBlock(init, f, order);
    }
  }

  // ---- with distinct characters, order of arrival needs it ----

  predicate DistinctCharacters(s: string) {
    forall i, j | 0 <= i < j < |s| :: s[i] != s[j]
  }

  /** One character comes somewhere before another. */
  ghost predicate Before(s: string, a: char, b: char) {
    exists k :: 0 <= k <= |s| && a in s[..k] && b in s[k..]
  }

  lemma BeforeMeans(s: string, a: char, b: char)
    requires DistinctCharacters(s) && Before(s, a, b)
    ensures a in s && b in s && forall x, y | 0 <= x < |s| && 0 <= y < |s| && s[x] == a && s[y] == b :: x < y
  {
    var k :| 0 <= k <= |s| && a in s[..k] && b in s[k..];
    var i :| 0 <= i < k && s[..k][i] == a;
    var j :| 0 <= j < |s| - k && s[k..][j] == b;
    assert s[i] == a && s[k + j] == b;
  }

  lemma OneWayOnly(s: string, a: char, b: char)
    requires DistinctCharacters(s) && Before(s, a, b)
    ensures !Before(s, b, a)
  {
    BeforeMeans(s, a, b);
    var x :| 0 <= x < |s| && s[x] == a;
    var y :| 0 <= y < |s| && s[y] == b;
    assert x < y;
    if Before(s, b, a) { BeforeMeans(s, b, a); }
  }

  lemma BeforeGrows(s: string, t: string, a: char, b: char)
    requires Before(s, a, b)
    ensures Before(s + t, a, b)
  {
    var k :| 0 <= k <= |s| && a in s[..k] && b in s[k..];
    assert (s + t)[..k] == s[..k] && (s + t)[k..] == s[k..] + t;
  }

  lemma BeforeLast(s: string, t: string, a: char, b: char)
    requires a in s && b in t
    ensures Before(s + t, a, b)
  {
    assert (s + t)[..|s|] == s && (s + t)[|s|..] == t;
  }

  lemma {:induction false} InJoined(fragments: seq<Fragment>, i: nat, a: char)
    requires i < |fragments| && a in fragments[i].text
    ensures a in Joined(fragments) && a in TextAt(fragments, fragments[i].index)
    decreases |fragments|
  {
    if i < |fragments| - 1 { InJoined(fragments[..|fragments| - 1], i, a); }
  }

  lemma {:induction false} InByBlock(fragments: seq<Fragment>, order: seq<int>, k: nat, a: char)
    requires k < |order| && a in TextAt(fragments, order[k])
    ensures a in ByBlock(fragments, order)
    decreases |order|
  {
    if k < |order| - 1 { InByBlock(fragments, order[..|order| - 1], k, a); }
  }

  lemma {:induction false} ArrivesBefore(fragments: seq<Fragment>, i: nat, j: nat, a: char, b: char)
    requires i < j < |fragments| && a in fragments[i].text && b in fragments[j].text
    ensures Before(Joined(fragments), a, b)
    decreases |fragments|
  {
    var init, last := fragments[..|fragments| - 1], fragments[|fragments| - 1];
    if j < |init| {
      ArrivesBefore(init, i, j, a, b);
      BeforeGrows(Joined(init), last.text, a, b);
    } else {
      InJoined(init, i, a);
      BeforeLast(Joined(init), last.text, a, b);
    }
  }

  lemma {:induction false} RendersBefore(fragments: seq<Fragment>, order: seq<int>, p: nat, q: nat, a: char, b: char)
    requires p < q < |order| && a in TextAt(fragments, order[p]) && b in TextAt(fragments, order[q])
    ensures Before(ByBlock(fragments, order), a, b)
    decreases |order|
  {
    var init, last := order[..|order| - 1], order[|order| - 1];
    if q < |init| {
      RendersBefore(fragments, init, p, q, a, b);
      BeforeGrows(ByBlock(fragments, init), TextAt(fragments, last), a, b);
    } else {
      InByBlock(fragments, init, p, a);
      BeforeLast(ByBlock(fragments, init), TextAt(fragments, last), a, b);
    }
  }

  lemma {:induction false} DistinctNeedsOrder(fragments: seq<Fragment>, order: seq<int>)
    requires Increasing(order) && forall k | 0 <= k < |fragments| ::
               fragments[k].index in order && fragments[k].text != ""
    requires ByBlock(fragments, order) == Joined(fragments) && DistinctCharacters(Joined(fragments))
    ensures NeverDecreases(fragments)
  {
    forall i, j | 0 <= i < j < |fragments| ensures fragments[i].index <= fragments[j].index {
      if fragments[j].index < fragments[i].index {
        var a, b := fragments[i].text[0], fragments[j].text[0];
        var q :| 0 <= q < |order| && order[q] == fragments[i].index;
        var p :| 0 <= p < |order| && order[p] == fragments[j].index;
        assert p < q;
        ArrivesBefore(fragments, i, j, a, b);
        InJoined(fragments, i, a);
        InJoined(fragments, j, b);
        RendersBefore(fragments, order, p, q, b, a);
        OneWayOnly(Joined(fragments), a, b);
      }
    }
  }

  // ---- the converter's text ----

  ghost predicate TextHeard(s: State, events: seq<M.Event>) {
    var landed := Landed(events);
    && (forall i :: i in TextBlocks(events) <==> IsText(s.blocks, i))
    && (forall i | IsText(s.blocks, i) :: s.blocks[i].text == TextAt(landed, i))
    && (forall k | 0 <= k < |landed| :: landed[k].index in TextBlocks(events) && landed[k].text != "")
  }

  lemma EventsSnoc(events: seq<M.Event>, ev: M.Event)
    ensures TextBlocks(events + [ev]) ==
            TextBlocks(events) + if ev.BlockStart? && ev.kind == "text" then {ev.index} else {}
    ensures Fragments(events + [ev]) ==
            Fragments(events) + if ev.TextFragment? && ev.text != "" then [Fragment(ev.index, ev.text)] else []
    ensures Landed(events + [ev]) ==
            Landed(events) +
            if ev.TextFragment? && ev.text != "" && ev.index in TextBlocks(events) then [Fragment(ev.index, ev.text)]
            else []
  {
    assert (events + [ev])[..|events|] == events;
  }

  lemma StartHeard(names: ToolNames, s: State, events: seq<M.Event>, ev: M.Event)
    requires TextHeard(s, events) && ev.BlockStart? && ev.index !in s.blocks
    ensures TextHeard(OnEvent(names, s, ev).state, events + [ev])
  {
    hide Landed, TextBlocks, TextAt, CallAdded;
    EventsSnoc(events, ev);
    var landed := Landed(events);
    assert landed + [] == landed;
    assert ev.index !in TextBlocks(events);
    NoTextAt(landed, ev.index);
  }

  lemma FragmentHeard(names: ToolNames, s: State, events: seq<M.Event>, ev: M.Event)
    requires TextHeard(s, events) && ev.TextFragment?
    ensures TextHeard(OnEvent(names, s, ev).state, events + [ev])
  {
    hide Landed, TextBlocks, TextAt;
    EventsSnoc(events, ev);
    var landed, f := Landed(events), Fragment(ev.index, ev.text);
    assert landed + [] == landed;
    var s' := OnEvent(names, s, ev).state;
    forall i | IsText(s'.blocks, i) ensures s'.blocks[i].text == TextAt(Landed(events + [ev]), i) {
      TextAtSnoc(landed, f, i);
      assert IsText(s.blocks, i);
      assert TextAt(landed, i) + "" == TextAt(landed, i);
    }
    assert forall i :: IsText(s'.blocks, i) <==> IsText(s.blocks, i);
  }

  lemma OthersHeard(names: ToolNames, s: State, events: seq<M.Event>, ev: M.Event)
    requires TextHeard(s, events) && !ev.BlockStart? && !ev.TextFragment?
    ensures TextHeard(OnEvent(names, s, ev).state, events + [ev])
  {
    hide Landed, TextBlocks, TextAt, ToolDelta, TerminalOf;
    EventsSnoc(events, ev);
    assert Landed(events) + [] == Landed(events);
    var s' := OnEvent(names, s, ev).state;
    assert forall i :: IsText(s'.blocks, i) <==> IsText(s.blocks, i);
  }

  lemma {:induction false} SentAppend(a: seq<Event>, b: seq<Event>)
    ensures SentText(a + b) == SentText(a) + SentText(b)
    decreases |b|
  {
    if b == [] {
      assert a + b == a;
    } else {
      assert (a + b)[..|a + b| - 1] == a + b[..|b| - 1];
      SentAppend(a, b[..|b| - 1]);
    }
  }

  lemma SentOne(e: Event)
    ensures SentText([e]) == match e case TextDelta(_, _, delta) => delta case _ => ""
  {
    assert [e][..0] == [];
  }

  lemma SentNothing(events: seq<Event>)
    requires |events| <= 1 && (events != [] ==> !events[0].TextDelta?)
    ensures SentText(events) == ""
  {
    if events != [] {
      assert events == [events[0]];
      SentOne(events[0]);
    }
  }

  /** Every text fragment is sent, wherever it goes. */
  lemma EventSends(names: ToolNames, s: State, ev: M.Event)
    requires !ev.MessageStop?
    ensures SentText(OnEvent(names, s, ev).events) == if ev.TextFragment? then ev.text else ""
  {
    hide SentText, ToolDelta, CallAdded;
    var events := OnEvent(names, s, ev).events;
    match ev
    case TextFragment(_, _) => SentOne(events[0]);
    case JsonFragment(index, partial) =>
      if index in s.blocks {
        var b := s.blocks[index];
        DeltasSay(names, b.id, b.outIdx, b.name, partial, b.args + partial, b.inputEmitted);
      }
      SentNothing(events);
    case BlockStart(_, _, id, name) =>
      AddedSays(names, s.outCount, id, name);
      SentNothing(events);
    case _ => SentNothing(events);
  }

  lemma DeltasSay(names: ToolNames, itemId: string, index: int, name: string, fragment: string, accumulated: string,
                  emitted: nat)
    ensures var events := ToolDelta(names, itemId, index, name, fragment, accumulated, emitted).0;
            |events| <= 1 && (events != [] ==> !events[0].TextDelta?)
  {
  }

  lemma AddedSays(names: ToolNames, index: int, callId: string, name: string)
    ensures !CallAdded(names, index, callId, name).TextDelta?
  {
  }

  lemma {:induction false} RunHeard(names: ToolNames, events: seq<M.Event>)
    requires FreshStarts(events)
    ensures var (s, sent) := Pieces.Run(names, Initial(), events);
            TextHeard(s, events) && SentText(sent) == Joined(Fragments(events))
    decreases |events|
  {
    hide OnEvent, TextHeard, OrderMore, SentText, Landed, Fragments, TextBlocks;
    if events == [] {
      NothingHeard();
    } else {
      var n := |events| - 1;
      var init, ev := events[..n], events[n];
      forall k | 0 <= k < n ensures init[..k] == events[..k] && init[k] == events[k] {
      }
      RunHeard(names, init);
      RunKeeps(names, init);
      var (s, sent) := Pieces.Run(names, Initial(), init);
      KeepsStarted(names, s, OrderOf(init), Announced(sent));
      assert events == init + [ev];
      if ev.BlockStart? {
        StartHeard(names, s, init, ev);
      } else if ev.TextFragment? {
        FragmentHeard(names, s, init, ev);
        TextAtSnoc(Fragments(init), Fragment(ev.index, ev.text), 0);
      } else {
        OthersHeard(names, s, init, ev);
      }
      EventsSnoc(init, ev);
      EventSends(names, s, ev);
      SentAppend(sent, OnEvent(names, s, ev).events);
      assert Fragments(init) + [] == Fragments(init);
      assert Joined(Fragments(init)) + "" == Joined(Fragments(init));
    }
  }

  lemma NothingHeard()
    ensures TextHeard(Initial(), []) && SentText([]) == Joined(Fragments([]))
  {
  }

  // ---- the rendered text ----

  /** The assembler has one slot for the message, if there is any text block. */
  ghost predicate OneSlot(a: Assembly) {
    && -1 <= a.slot < |a.items| && (a.slot < 0 ==> a.text == "")
    && forall k | 0 <= k < |a.items| ::
         if k == a.slot then a.items[k] == None else a.items[k].Some? && a.items[k].value.Call?
  }

  lemma {:induction false} AssembledText(names: ToolNames, s: State, events: seq<M.Event>, order: seq<int>)
    requires TextHeard(s, events) && Meaning.InMap(s.blocks, order)
    ensures var a := Assemble(names, s.blocks, order);
            OneSlot(a) && a.text == ByBlock(Landed(events), order)
    decreases |order|
  {
    hide RenderedCall, DefaultArgs, Landed, TextBlocks, TextAt;
    if order != [] {
      var init, last := order[..|order| - 1], order[|order| - 1];
      AssembledText(names, s, events, init);
      if s.blocks[last].kind == "text" {
        assert IsText(s.blocks, last);
      } else {
        assert last !in TextBlocks(events);
        NoTextAt(Landed(events), last);
        assert ByBlock(Landed(events), init) + "" == ByBlock(Landed(events), init);
      }
    }
  }

  /** Up to the message nothing is said, and from there on its text. */
  lemma {:induction false} FilledSays(a: Assembly, id: string, n: nat)
    requires OneSlot(a) && n <= |a.items|
    ensures RenderedText(Filled(a, id)[..n]) == if 0 <= a.slot < n then a.text else ""
    decreases n
  {
    if n > 0 {
      var output := Filled(a, id);
      FilledSays(a, id, n - 1);
      assert output[..n][..n - 1] == output[..n - 1] && output[..n][n - 1] == output[n - 1];
      assert Concat([a.text]) == "" + a.text by { assert [a.text][..0] == []; }
      assert "" + a.text == a.text && a.text + "" == a.text;
    }
  }

  lemma RenderedIs(names: ToolNames, s: State, events: seq<M.Event>)
    requires TextHeard(s, events)
    ensures RenderedText(OutputOf(names, s)) == ByBlock(Landed(events), Sorted(s.blocks.Keys))
  {
    var order := Sorted(s.blocks.Keys);
    SortedIsSorted(s.blocks.Keys);
    assert Meaning.InMap(s.blocks, order);
    hide Sorted, TextHeard, Assemble, RenderedText, ByBlock;
    AssembledText(names, s, events, order);
    var a := Assemble(names, s.blocks, order);
    FilledSays(a, s.msgId, |a.items|);
    assert Filled(a, s.msgId)[..|a.items|] == Filled(a, s.msgId);
  }

  // ---- sent against landed ----

  lemma {:induction false} LandedOrLost(events: seq<M.Event>)
    ensures |Joined(Landed(events))| <= |Joined(Fragments(events))|
    ensures AllLand(events) ==> Landed(events) == Fragments(events)
    ensures |Joined(Landed(events))| == |Joined(Fragments(events))| ==> AllLand(events)
    decreases |events|
  {
    if events != [] {
      hide Landed, Fragments, TextBlocks, AllLand;
      var init, ev := events[..|events| - 1], events[|events| - 1];
      assert init + [ev] == events;
      LandedOrLost(init);
      EventsSnoc(init, ev);
      AllLandSnoc(init, ev);
      assert Landed(init) + [] == Landed(init) && Fragments(init) + [] == Fragments(init);
      if ev.TextFragment? && ev.text != "" {
        var f := Fragment(ev.index, ev.text);
        TextAtSnoc(Landed(init), f, 0);
        TextAtSnoc(Fragments(init), f, 0);
      }
    }
  }

  lemma AllLandSnoc(events: seq<M.Event>, ev: M.Event)
    ensures AllLand(events + [ev]) <==>
            AllLand(events) && (ev.TextFragment? && ev.text != "" ==> ev.index in TextBlocks(events))
  {
    hide TextBlocks;
    var all := events + [ev];
    assert all[..|events|] == events && all[|events|] == ev;
    forall k | 0 <= k < |events| ensures all[..k] == events[..k] && all[k] == events[k] {
    }
  }

  /** For every stream that starts each block index once: the text a client joined
      from the deltas is that of the rendered message if every non-empty fragment
      goes to a text block that has started and the indexes of those blocks never
      decrease.  A fragment for no text block always breaks it, and with characters
      that differ so does a decrease. */
  lemma {:induction false} SentTextIsRenderedIff(names: ToolNames, events: seq<M.Event>)
    requires FreshStarts(events)
    ensures var (s, sent) := Pieces.Run(names, Initial(), events);
            var fragments, rendered := Fragments(events), RenderedText(OutputOf(names, s));
            && SentText(sent) == Joined(fragments)
            && (AllLand(events) && NeverDecreases(fragments) ==> SentText(sent) == rendered)
            && (SentText(sent) == rendered ==> AllLand(events))
            && (DistinctCharacters(SentText(sent)) ==>
                  (SentText(sent) == rendered <==> AllLand(events) && NeverDecreases(fragments)))
  {
    hide Pieces.Run, OutputOf, TextHeard, AllLand, NeverDecreases, DistinctCharacters, Landed, Fragments, ByBlock,
         Joined, RenderedText, SentText, Sorted;
    var (s, sent) := Pieces.Run(names, Initial(), events);
    var order, landed := Sorted(s.blocks.Keys), Landed(events);
    RunHeard(names, events);
    RenderedIs(names, s, events);
    SortedIsSorted(s.blocks.Keys);
    LandedIsListed(s, events, order);
    ArrivalIsBlockOrder(landed, order);
    LandedOrLost(events);
    if AllLand(events) && ByBlock(landed, order) == Joined(landed) && DistinctCharacters(Joined(landed)) {
      DistinctNeedsOrder(landed, order);
    }
  }

  lemma LandedIsListed(s: State, events: seq<M.Event>, order: seq<int>)
    requires TextHeard(s, events) && Lists(order, s.blocks.Keys)
    ensures forall k | 0 <= k < |Landed(events)| :: Landed(events)[k].index in order && Landed(events)[k].text != ""
  {
    hide Landed, TextBlocks, TextAt;
    ListsMembers(order, s.blocks.Keys);
  }

  /** The code does not ask what kind of block text is for: text for a call is sent
      under the call's own output index, and never rendered. */
  lemma TextForACallIsLost(names: ToolNames, s: State, id: string, name: string, a: string)
    requires s.blocks == map[] && s.outCount == 0 && s.msgIdx == -1
    ensures var (first, e1) := OnBlockStart(names, s, 0, "tool_use", id, name);
            var (second, e2) := OnText(first, 0, a);
            && e1 == [CallAdded(names, 0, id, name)] && e2 == [TextDelta(s.msgId, 0, a)]
            && |OutputOf(names, second)| == 1 && OutputOf(names, second)[0].Call?
  {
    hide Assemble, CallAdded;
    var first := OnBlockStart(names, s, 0, "tool_use", id, name).0;
    var second := OnText(first, 0, a).0;
    SortedIsSorted(second.blocks.Keys);
    assert Lists([0], second.blocks.Keys) by { assert [0][0] == 0; }
    Meaning.SameElementsSameOrder(Sorted(second.blocks.Keys), [0], second.blocks.Keys);
    hide Sorted, Lists;
    OneCall(names, second.blocks);
  }

  lemma OneCall(names: ToolNames, blocks: map<int, BlockState>)
    requires 0 in blocks && blocks[0].kind == "tool_use"
    ensures var items := Assemble(names, blocks, [0]).items;
            |items| == 1 && items[0].Some? && items[0].value.Call?
  {
    hide RenderedCall, DefaultArgs;
    assert [0][..0] == [];
  }

  // ---- the item that text is for ----

  /** The announcement of the message a delta is for. */
  predicate NamedBy(delta: Event, added: Event) {
    && delta.TextDelta? && added.ItemAdded? && added.item.Message?
    && added.index == delta.index && added.item.id == delta.itemId
  }

  /** Every text delta names a message item announced before it. */
  ghost predicate TextNamesItems(sent: seq<Event>) {
    forall k | 0 <= k < |sent| && sent[k].TextDelta? :: exists j :: 0 <= j < k && NamedBy(sent[k], sent[j])
  }

  /** Text comes after the start of a text block, and message_start has not renamed
      the message since. */
  predicate TextComesLater(events: seq<M.Event>) {
    forall k | 0 <= k < |events| && events[k].TextFragment? ::
      var o := OrderOf(events[..k]);
      o.text.Some? && o.textId == o.id
  }

  /** At most one message is announced, with the first text block. */
  ghost predicate OneMessage(s: State, o: Order, sent: seq<Event>) {
    && s.msgId == o.id && (s.msgIdx < 0 <==> o.text.None?) && (o.text.Some? ==> o.text.value < |o.places|)
    && (forall j | 0 <= j < |sent| && sent[j].ItemAdded? && sent[j].item.Message? ::
          o.text.Some? && sent[j].index == s.msgIdx && sent[j].item.id == o.textId)
    && (o.text.Some? ==> exists j :: 0 <= j < |sent| && sent[j] == ItemAdded(s.msgIdx, Message(o.textId, [])))
  }

  lemma EventKeepsMessage(names: ToolNames, s: State, o: Order, sent: seq<Event>, ev: M.Event)
    requires OneMessage(s, o, sent) && !ev.MessageStop?
    ensures var out := OnEvent(names, s, ev); OneMessage(out.state, OrderMore(o, ev), sent + out.events)
  {
    hide CallAdded, ToolDelta;
    var out, o' := OnEvent(names, s, ev), OrderMore(o, ev);
    var all := sent + out.events;
    NoMoreMessages(names, s, ev);
    forall j | 0 <= j < |all| && all[j].ItemAdded? && all[j].item.Message?
      ensures o'.text.Some? && all[j].index == out.state.msgIdx && all[j].item.id == o'.textId
    {
      assert all[j] == if j < |sent| then sent[j] else out.events[j - |sent|];
    }
    if o'.text.Some? {
      if o.text.Some? {
        var j :| 0 <= j < |sent| && sent[j] == ItemAdded(s.msgIdx, Message(o.textId, []));
        assert all[j] == sent[j];
      } else {
        assert all[|sent|] == out.events[0];
      }
    }
  }

  /** Only the first text block announces a message. */
  lemma NoMoreMessages(names: ToolNames, s: State, ev: M.Event)
    requires !ev.MessageStop?
    ensures forall e | e in OnEvent(names, s, ev).events && e.ItemAdded? && e.item.Message? ::
              ev.BlockStart? && ev.kind == "text" && s.msgIdx < 0 && e == ItemAdded(s.outCount, Message(s.msgId, []))
  {
    hide ToolDelta;
    match ev
    case JsonFragment(index, partial) =>
      if index in s.blocks {
        var b := s.blocks[index];
        DeltasOnly(names, b.id, b.outIdx, b.name, partial, b.args + partial, b.inputEmitted);
      }
    case _ =>
  }

  lemma TextNamesSnoc(sent: seq<Event>, more: seq<Event>)
    requires |more| <= 1
    ensures TextNamesItems(sent + more) <==>
            TextNamesItems(sent)
            && (more != [] && more[0].TextDelta? ==> exists j :: 0 <= j < |sent| && NamedBy(more[0], sent[j]))
  {
    hide NamedBy;
    var all := sent + more;
    forall k | 0 <= k < |sent| ensures all[k] == sent[k] {
    }
    if more == [] { assert all == sent; } else { assert all[|sent|] == more[0]; }
  }

  lemma {:induction false} TextComesSnoc(events: seq<M.Event>, ev: M.Event)
    ensures TextComesLater(events + [ev]) <==>
            TextComesLater(events)
            && (ev.TextFragment? ==> OrderOf(events).text.Some? && OrderOf(events).textId == OrderOf(events).id)
  {
    hide OrderOf;
    var all := events + [ev];
    assert all[..|events|] == events && all[|events|] == ev;
    forall k | 0 <= k < |events| ensures all[..k] == events[..k] && all[k] == events[k] {
    }
  }

  lemma EventNames(names: ToolNames, s: State, o: Order, sent: seq<Event>, ev: M.Event)
    requires OneMessage(s, o, sent) && !ev.MessageStop?
    ensures TextNamesItems(sent + OnEvent(names, s, ev).events) <==>
            TextNamesItems(sent) && (ev.TextFragment? ==> o.text.Some? && o.textId == o.id)
  {
    hide TextNamesItems, CallAdded, ToolDelta;
    var more := OnEvent(names, s, ev).events;
    if ev.JsonFragment? && ev.index in s.blocks {
      var b := s.blocks[ev.index];
      DeltasSay(names, b.id, b.outIdx, b.name, ev.partial, b.args + ev.partial, b.inputEmitted);
    }
    if ev.BlockStart? { AddedSays(names, s.outCount, ev.id, ev.name); }
    TextNamesSnoc(sent, more);
    if ev.TextFragment? && o.text.Some? && o.textId == o.id {
      var j :| 0 <= j < |sent| && sent[j] == ItemAdded(s.msgIdx, Message(o.textId, []));
      assert NamedBy(more[0], sent[j]);
    }
  }

  lemma {:induction false} RunNames(names: ToolNames, events: seq<M.Event>)
    requires forall k | 0 <= k < |events| :: !events[k].MessageStop?
    ensures var (s, sent) := Pieces.Run(names, Initial(), events);
            OneMessage(s, OrderOf(events), sent) && (TextNamesItems(sent) <==> TextComesLater(events))
    decreases |events|
  {
    if events != [] {
      hide OnEvent, OneMessage, OrderMore, TextNamesItems, TextComesLater;
      var init, ev := events[..|events| - 1], events[|events| - 1];
      assert init + [ev] == events;
      RunNames(names, init);
      var (s, sent) := Pieces.Run(names, Initial(), init);
      EventKeepsMessage(names, s, OrderOf(init), sent, ev);
      EventNames(names, s, OrderOf(init), sent, ev);
      TextComesSnoc(init, ev);
    }
  }

  /** Every text delta names, by index and id, a message item announced before it, if
      and only if all text comes after the start of a text block and under the same
      message_start. */
  lemma EveryDeltaNamesItsItemIff(names: ToolNames, events: seq<M.Event>)
    requires forall k | 0 <= k < |events| :: !events[k].MessageStop?
    ensures TextNamesItems(Pieces.Run(names, Initial(), events).1) <==> TextComesLater(events)
  {
    RunNames(names, events);
  }
}
