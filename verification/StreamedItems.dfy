/** What a Responses client reads of a whole Chat Completions or Messages stream,
    item by item, in terms of what the upstream sent. */
module StreamedItems {
  import opened Basics
  import opened ResponseTools
  import opened Wire
  import opened ResponsesTurn
  import opened TurnPieces
  import opened StreamedInputs
  import opened ResponsesItems
  import opened ChatChunks
  import Chat = ChatMeaning
  import ChatConv = ChatToResponses
  import U = ChatUnits
  import M = MessagesEvents
  import Msgs = MessagesPieces

  // ---- what a chat stream sends ----

  /** The non-empty contents, in order. */
  function Contents(units: seq<U.Unit>): seq<string> {
    if units == [] then []
    else Contents(units[..|units| - 1]) + match units[|units| - 1] case Say(text) => [text] case _ => []
  }

  /** The non-empty argument fragments of one upstream index, in order. */
  function Fragments(units: seq<U.Unit>, index: int): seq<string> {
    if units == [] then []
    else
      Fragments(units[..|units| - 1], index) +
      match units[|units| - 1]
      case Entry(tc) => (if tc.index == index && tc.arguments != "" then [tc.arguments] else [])
      case _ => []
  }

  lemma UnitsMore(units: seq<U.Unit>, u: U.Unit)
    ensures Contents(units + [u]) == Contents(units) + match u case Say(text) => [text] case _ => []
    ensures forall i :: Fragments(units + [u], i) == Fragments(units, i) +
              match u
              case Entry(tc) => (if tc.index == i && tc.arguments != "" then [tc.arguments] else [])
              case _ => []
  {
    assert (units + [u])[..|units|] == units;
  }

  lemma {:induction false} NoFragments(units: seq<U.Unit>, index: int)
    requires index !in U.Seen(units)
    ensures Fragments(units, index) == []
    decreases |units|
  {
    if units != [] { NoFragments(units[..|units| - 1], index); }
  }

  /** The k-th call of the pieces is the k-th that the chunks name, fragment by fragment. */
  ghost predicate CallAccounts(pieces: seq<Piece>, units: seq<U.Unit>, k: nat) {
    && k < |U.Seen(units)| && k < |Starts(pieces)|
    && var index := U.Seen(units)[k];
    && Starts(pieces)[k] == (U.Opening(units, index).id, U.Opening(units, index).name)
    && Parts(pieces, k) == Fragments(units, index)
  }

  ghost predicate SaysWhat(pieces: seq<Piece>, units: seq<U.Unit>) {
    && Texts(pieces) == Contents(units) && (TextSlot(pieces) >= 0 <==> Contents(units) != [])
    && |Starts(pieces)| == |U.Seen(units)|
    && forall k | 0 <= k < |Starts(pieces)| :: CallAccounts(pieces, units, k)
  }

  ghost predicate Accounts(r: Chat.Reading, pieces: seq<Piece>, units: seq<U.Unit>) {
    && r.seen == U.Seen(units) && (r.begun <==> TextSlot(pieces) >= 0)
    && TextIsBegun(pieces) && SaysWhat(pieces, units)
  }

  lemma ContentAccounts(r: Chat.Reading, pieces: seq<Piece>, units: seq<U.Unit>, content: string)
    requires Accounts(r, pieces, units) && content != ""
    ensures var (r', more) := Chat.ReadContent(r, content); Accounts(r', pieces + more, units + [U.Say(content)])
  {
    hide Texts, Starts, TextSlot, Parts, TextIsBegun, Contents, Fragments, U.Seen, U.Opening, U.Spoken, U.Arguments,
         U.Finished;
    var u := U.Say(content);
    UnitsMore(units, u);
    U.UnitsSnoc(units, u);
    var begun := if r.begun then pieces else pieces + [BeginText];
    if !r.begun {
      PiecesSnoc(pieces, BeginText);
      PartsSnoc(pieces, BeginText);
    }
    PiecesSnoc(begun, Say(content));
    PartsSnoc(begun, Say(content));
    var more := Chat.ReadContent(r, content).1;
    assert pieces + more == begun + [Say(content)];
    forall k | 0 <= k < |Starts(pieces)| ensures CallAccounts(pieces + more, units + [u], k) {
      assert CallAccounts(pieces, units, k);
      var index := U.Seen(units)[k];
      assert index in U.Seen(units);
      assert Parts(pieces + more, k) == Parts(pieces, k) + [] + [];
      assert Fragments(units + [u], index) == Fragments(units, index) + [];
    }
  }

  /** An entry that opens a call. */
  lemma NewCallAccounts(r: Chat.Reading, pieces: seq<Piece>, units: seq<U.Unit>, tc: ToolCallDelta)
    requires Accounts(r, pieces, units) && tc.index !in r.seen
    ensures var (r', more) := Chat.ReadCall(r, tc); Accounts(r', pieces + more, units + [U.Entry(tc)])
  {
    hide Texts, Starts, TextSlot, Parts, TextIsBegun, Contents, Fragments, U.Seen, U.Opening, U.Spoken, U.Arguments,
         U.Finished, NumberOf;
    var u, n := U.Entry(tc), |Starts(pieces)|;
    UnitsMore(units, u);
    U.UnitsSnoc(units, u);
    NoFragments(units, tc.index);
    NoParts(pieces, n);
    assert NumberOf(r.seen, tc.index) == n by { NewNumber(r.seen, tc.index); }
    var began := pieces + [Start(tc.id, tc.name)];
    PiecesSnoc(pieces, Start(tc.id, tc.name));
    PartsSnoc(pieces, Start(tc.id, tc.name));
    var fed := began + [Feed(n, tc.arguments)];
    PiecesSnoc(began, Feed(n, tc.arguments));
    PartsSnoc(began, Feed(n, tc.arguments));
    var all := pieces + Chat.ReadCall(r, tc).1;
    assert all == if tc.arguments == "" then began else fed;
    assert U.Seen(units + [u])[n] == tc.index;
    forall k | 0 <= k < n ensures CallAccounts(all, units + [u], k) {
      assert CallAccounts(pieces, units, k);
      var index := U.Seen(units)[k];
      assert index in U.Seen(units) && U.Seen(units + [u])[k] == index && Starts(all)[k] == Starts(pieces)[k];
      assert Parts(all, k) == Parts(pieces, k) + [] + [];
      assert Fragments(units + [u], index) == Fragments(units, index) + [];
    }
    assert CallAccounts(all, units + [u], n);
  }

  lemma {:induction false} NewNumber(seen: seq<int>, x: int)
    requires x !in seen
    ensures NumberOf(seen, x) == |seen|
  {
  }

  /** An entry of a call that is open. */
  lemma KnownCallAccounts(r: Chat.Reading, pieces: seq<Piece>, units: seq<U.Unit>, tc: ToolCallDelta)
    requires Accounts(r, pieces, units) && tc.index in r.seen
    ensures var (r', more) := Chat.ReadCall(r, tc); Accounts(r', pieces + more, units + [U.Entry(tc)])
  {
    hide Texts, Starts, TextSlot, Parts, TextIsBegun, Contents, Fragments, U.Seen, U.Opening, U.Spoken, U.Arguments,
         U.Finished, NumberOf;
    var u, n := U.Entry(tc), |Starts(pieces)|;
    UnitsMore(units, u);
    U.UnitsSnoc(units, u);
    U.SeenOnce(units);
    var j :| 0 <= j < n && r.seen[j] == tc.index;
    NumberIs(r.seen, j);
    var fed := pieces + [Feed(j, tc.arguments)];
    PiecesSnoc(pieces, Feed(j, tc.arguments));
    PartsSnoc(pieces, Feed(j, tc.arguments));
    var all := pieces + Chat.ReadCall(r, tc).1;
    assert all == if tc.arguments == "" then pieces else fed;
    forall k | 0 <= k < n ensures CallAccounts(all, units + [u], k) {
      assert CallAccounts(pieces, units, k);
      var index := U.Seen(units)[k];
      assert index in U.Seen(units) && (k == j <==> index == tc.index);
      assert Parts(pieces, k) + [] == Parts(pieces, k) && Fragments(units, index) + [] == Fragments(units, index);
    }
  }

  lemma {:induction false} CallsAccount(r: Chat.Reading, pieces: seq<Piece>, units: seq<U.Unit>,
                                        calls: seq<ToolCallDelta>)
    requires Accounts(r, pieces, units)
    ensures var (r', more) := Chat.ReadCalls(r, calls); Accounts(r', pieces + more, units + U.Entries(calls))
    decreases |calls|
  {
    hide Accounts, Chat.ReadCall;
    if calls == [] {
      assert pieces + [] == pieces && units + [] == units;
    } else {
      var init, tc := calls[..|calls| - 1], calls[|calls| - 1];
      CallsAccount(r, pieces, units, init);
      var (r1, p1) := Chat.ReadCalls(r, init);
      var u1 := U.Entries(init);
      CallAccountsStep(r1, pieces + p1, units + u1, tc);
      var (r2, p2) := Chat.ReadCall(r1, tc);
      assert Chat.ReadCalls(r, calls) == (r2, p1 + p2) && U.Entries(calls) == u1 + [U.Entry(tc)];
      hide Chat.ReadCalls, U.Entries;
      assert pieces + p1 + p2 == pieces + (p1 + p2);
      assert units + u1 + [U.Entry(tc)] == units + (u1 + [U.Entry(tc)]);
    }
  }

  lemma CallAccountsStep(r: Chat.Reading, pieces: seq<Piece>, units: seq<U.Unit>, tc: ToolCallDelta)
    requires Accounts(r, pieces, units)
    ensures var (r', more) := Chat.ReadCall(r, tc); Accounts(r', pieces + more, units + [U.Entry(tc)])
  {
    hide Accounts, Chat.ReadCall;
    if tc.index in r.seen {
      KnownCallAccounts(r, pieces, units, tc);
    } else {
      NewCallAccounts(r, pieces, units, tc);
    }
  }

  lemma FinishAccounts(r: Chat.Reading, pieces: seq<Piece>, units: seq<U.Unit>, reason: string)
    requires Accounts(r, pieces, units)
    ensures Accounts(r, pieces, units + [U.Finish(reason)])
  {
    hide Texts, Starts, TextSlot, Parts, TextIsBegun, Contents, Fragments, U.Seen, U.Opening, U.Spoken, U.Arguments,
         U.Finished;
    var u := U.Finish(reason);
    UnitsMore(units, u);
    U.UnitsSnoc(units, u);
    forall k | 0 <= k < |Starts(pieces)| ensures CallAccounts(pieces, units + [u], k) {
      assert CallAccounts(pieces, units, k) && U.Seen(units)[k] in U.Seen(units);
      assert Fragments(units, U.Seen(units)[k]) + [] == Fragments(units, U.Seen(units)[k]);
    }
    assert Contents(units) + [] == Contents(units);
  }

  lemma {:induction false} ChatAccounts(chunks: seq<Chunk>)
    ensures var (r, pieces) := Chat.ReadChunks(chunks); Accounts(r, pieces, U.Units(chunks))
    decreases |chunks|
  {
    if chunks != [] {
      hide Accounts, Chat.ReadContent, Chat.ReadCalls;
      var init, last := chunks[..|chunks| - 1], chunks[|chunks| - 1];
      ChatAccounts(init);
      var (r, pieces) := Chat.ReadChunks(init);
      var units := U.Units(init);
      if last.choices == [] {
        assert units + [] == units;
      } else {
        ChoiceAccounts(r, pieces, units, last.choices[0]);
      }
    }
  }

  lemma ChoiceAccounts(r: Chat.Reading, pieces: seq<Piece>, units: seq<U.Unit>, choice: Choice)
    requires Accounts(r, pieces, units)
    ensures var (r', more) := Chat.ReadChoice(r, choice); Accounts(r', pieces + more, units + U.ChoiceUnits(choice))
  {
    hide Accounts, Chat.ReadCalls, U.Entries;
    var (r1, p1) := Chat.ReadContent(r, choice.content);
    var u1 := if choice.content != "" then units + [U.Say(choice.content)] else units;
    if choice.content != "" {
      ContentAccounts(r, pieces, units, choice.content);
    } else {
      assert pieces + p1 == pieces;
    }
    CallsAccount(r1, pieces + p1, u1, choice.toolCalls);
    var (r2, p2) := Chat.ReadCalls(r1, choice.toolCalls);
    var u2 := u1 + U.Entries(choice.toolCalls);
    assert pieces + p1 + p2 == pieces + (p1 + p2);
    if choice.finish != "" {
      FinishAccounts(r2, pieces + p1 + p2, u2, choice.finish);
      assert u2 + [U.Finish(choice.finish)] == units + U.ChoiceUnits(choice);
    } else {
      assert u2 == units + U.ChoiceUnits(choice);
    }
  }

  /** A chat upstream's usage, in the words of a Responses client; none is zero. */
  function Reported(usage: Option<Usage>): ResponsesUsage {
    match usage
    case None => ResponsesUsage(0, 0, 0, None, None)
    case Some(u) =>
      ResponsesUsage(u.prompt, u.completion, u.prompt + u.completion,
                     if u.cached.Some? then Some(InputDetails(u.cached, None)) else None, u.reasoning)
  }

  /** The events are those of the turn that the chunks say, with their identity, the
      status their finish reason stands for, and the usage reported by its end. */
  ghost predicate ChatTurnIsRead(names: ToolNames, events: seq<Event>, chunks: seq<Chunk>, trailer: seq<Chunk>)
    requires Chat.WellFormed(chunks, trailer)
  {
    var pieces := Chat.Pieces(chunks);
    && SaysWhat(pieces, U.Units(chunks))
    && ReadsTurn(names, events, pieces, chunks[0].id, chunks[0].model,
                 if chunks[|chunks| - 1].choices[0].finish == "length" then "incomplete" else "completed",
                 Reported(Chat.UsageAtTerminal(chunks, trailer)))
  }

  /** Every well-formed chat stream: what its client receives for each item is what
      the chunks say, call by call, fragment by fragment. */
  lemma ChatStreamIsRead(names: ToolNames, chunks: seq<Chunk>, trailer: seq<Chunk>)
    requires Chat.WellFormed(chunks, trailer)
    ensures ChatTurnIsRead(names, Chat.StreamEvents(names, chunks, trailer), chunks, trailer)
  {
    hide Canonical, SaysWhat, ReadsTurn, Chat.StreamEvents, Chat.ReadChunks;
    ChatAccounts(chunks);
    Chat.ChatIsCanonical(names, chunks, trailer);
    TurnIsRead(names, chunks[0].id, chunks[0].model, Chat.Pieces(chunks),
               ResponseStatusFromFinish(chunks[|chunks| - 1].choices[0].finish),
               ChatConv.UsageOf(Chat.UsageAtTerminal(chunks, trailer)));
  }

  // ---- what a Messages stream sends ----

  function TextsOf(events: seq<M.Event>): seq<string> {
    if events == [] then []
    else
      TextsOf(events[..|events| - 1]) +
      match events[|events| - 1] case TextFragment(_, text) => [text] case _ => []
  }

  /** The tool blocks in order: index, id and name. */
  function Tools(events: seq<M.Event>): seq<(int, string, string)> {
    if events == [] then []
    else
      Tools(events[..|events| - 1]) +
      match events[|events| - 1]
      case BlockStart(index, kind, id, name) => (if kind == "tool_use" then [(index, id, name)] else [])
      case _ => []
  }

  /** The argument fragments of one block, in order. */
  function JsonOf(events: seq<M.Event>, index: int): seq<string> {
    if events == [] then []
    else
      JsonOf(events[..|events| - 1], index) +
      match events[|events| - 1] case JsonFragment(i, partial) => (if i == index then [partial] else []) case _ => []
  }

  function HasText(events: seq<M.Event>): bool {
    exists k | 0 <= k < |events| :: events[k].BlockStart? && events[k].kind == "text"
  }

  lemma EventsMore(events: seq<M.Event>, ev: M.Event)
    ensures TextsOf(events + [ev]) == TextsOf(events) + match ev case TextFragment(_, text) => [text] case _ => []
    ensures Tools(events + [ev]) == Tools(events) +
              match ev
              case BlockStart(index, kind, id, name) => (if kind == "tool_use" then [(index, id, name)] else [])
              case _ => []
    ensures forall i :: JsonOf(events + [ev], i) == JsonOf(events, i) +
              match ev case JsonFragment(j, partial) => (if j == i then [partial] else []) case _ => []
    ensures HasText(events + [ev]) <==> HasText(events) || (ev.BlockStart? && ev.kind == "text")
  {
    var all := events + [ev];
    assert all[..|events|] == events && all[|events|] == ev;
    assert forall k | 0 <= k < |events| :: all[k] == events[k];
  }

  ghost predicate BlockAccounts(pieces: seq<Piece>, events: seq<M.Event>, k: nat) {
    && k < |Tools(events)| && k < |Starts(pieces)|
    && var (index, id, name) := Tools(events)[k];
    Starts(pieces)[k] == (id, name) && Parts(pieces, k) == JsonOf(events, index)
  }

  ghost predicate TellsWhat(pieces: seq<Piece>, events: seq<M.Event>) {
    && Texts(pieces) == TextsOf(events) && (TextSlot(pieces) >= 0 <==> HasText(events))
    && |Starts(pieces)| == |Tools(events)|
    && forall k | 0 <= k < |Starts(pieces)| :: BlockAccounts(pieces, events, k)
  }

  ghost predicate Indexed(r: Msgs.Reading, events: seq<M.Event>) {
    && |r.tools| == |Tools(events)| && (forall k | 0 <= k < |r.tools| :: r.tools[k] == Tools(events)[k].0)
    && (forall x | x in r.tools :: r.last.Some? && x <= r.last.value)
    && (forall i, j | 0 <= i < j < |r.tools| :: r.tools[i] != r.tools[j])
    && (forall x | x !in r.tools :: JsonOf(events, x) == [])
  }

  ghost predicate Follows(r: Msgs.Reading, pieces: seq<Piece>, events: seq<M.Event>) {
    && Indexed(r, events) && TellsWhat(pieces, events) && TextIsBegun(pieces)
    && (r.begun <==> TextSlot(pieces) >= 0) && (r.texts != {} ==> r.begun)
  }

  lemma BlockFollows(r: Msgs.Reading, pieces: seq<Piece>, events: seq<M.Event>, ev: M.Event)
    requires Follows(r, pieces, events) && Msgs.Fits(r, ev) && ev.BlockStart?
    ensures var (r', more) := Msgs.ReadEvent(r, ev); Follows(r', pieces + more, events + [ev])
  {
    hide Texts, Starts, TextSlot, Parts, TextIsBegun, TextsOf, Tools, JsonOf, HasText;
    EventsMore(events, ev);
    var (r', more) := Msgs.ReadEvent(r, ev);
    var n, all := |Starts(pieces)|, events + [ev];
    if more != [] {
      assert pieces + more == pieces + [more[0]];
      PiecesSnoc(pieces, more[0]);
      PartsSnoc(pieces, more[0]);
    } else {
      assert pieces + more == pieces;
    }
    NoParts(pieces, n);
    assert ev.index !in r.tools;
    forall k | 0 <= k < |Starts(pieces + more)| ensures BlockAccounts(pieces + more, all, k) {
      if k < n {
        assert BlockAccounts(pieces, events, k) && Tools(all)[k] == Tools(events)[k];
        assert Starts(pieces + more)[k] == Starts(pieces)[k];
      }
    }
  }

  lemma FragmentFollows(r: Msgs.Reading, pieces: seq<Piece>, events: seq<M.Event>, ev: M.Event)
    requires Follows(r, pieces, events) && Msgs.Fits(r, ev) && !ev.BlockStart?
    ensures var (r', more) := Msgs.ReadEvent(r, ev); Follows(r', pieces + more, events + [ev])
  {
    hide Texts, Starts, TextSlot, Parts, TextIsBegun, TextsOf, Tools, JsonOf, HasText, NumberOf;
    EventsMore(events, ev);
    var (r', more) := Msgs.ReadEvent(r, ev);
    var n, all := |Starts(pieces)|, events + [ev];
    if more != [] {
      assert pieces + more == pieces + [more[0]];
      PiecesSnoc(pieces, more[0]);
      PartsSnoc(pieces, more[0]);
    } else {
      assert pieces + more == pieces;
    }
    assert Starts(pieces + more) == Starts(pieces) + [] && Tools(all) == Tools(events) + [];
    forall k | 0 <= k < n ensures BlockAccounts(pieces + more, all, k) {
      assert BlockAccounts(pieces, events, k);
      NumberIs(r.tools, k);
    }
  }

  lemma {:induction false} MessagesFollow(events: seq<M.Event>)
    requires Msgs.WellFormed(events)
    ensures var (r, pieces) := Msgs.ReadEvents(events); Follows(r, pieces, events)
    decreases |events|
  {
    hide Msgs.ReadEvent, Msgs.Fits, Follows;
    if events == [] {
      NothingFollows();
    } else {
      var init, ev := events[..|events| - 1], events[|events| - 1];
      MessagesFollow(init);
      var (r, pieces) := Msgs.ReadEvents(init);
      assert events == init + [ev];
      if ev.BlockStart? { BlockFollows(r, pieces, init, ev); } else { FragmentFollows(r, pieces, init, ev); }
    }
  }

  lemma NothingFollows()
    ensures Follows(Msgs.NOTHING, [], [])
  {
  }

  /** The events are those of the turn that the blocks tell, with the stream's identity,
      the status its stop reason stands for, and its last counts. */
  ghost predicate MessagesTurnIsRead(names: ToolNames, events: seq<Event>, st: Msgs.Stream) {
    var pieces := Msgs.Pieces(st.blocks);
    var read := if st.usage.cacheRead.Some? then st.usage.cacheRead else st.startUsage.cacheRead;
    var write := if st.usage.cacheWrite.Some? then st.usage.cacheWrite else st.startUsage.cacheWrite;
    var prompt := (if st.usage.input != 0 then st.usage.input else st.startUsage.input) +
                  (if read.Some? then read.value else 0) + (if write.Some? then write.value else 0);
    && TellsWhat(pieces, st.blocks)
    && ReadsTurn(names, events, pieces, st.id, st.model,
                 if st.stopReason == "max_tokens" then "incomplete" else "completed",
                 ResponsesUsage(prompt, st.usage.output, prompt + st.usage.output,
                                if read.Some? || write.Some? then Some(InputDetails(read, write)) else None, None))
  }

  /** Every well-formed Messages stream, block by block, fragment by fragment. */
  lemma MessagesStreamIsRead(names: ToolNames, st: Msgs.Stream)
    requires Msgs.WellFormed(st.blocks)
    ensures MessagesTurnIsRead(names, Msgs.StreamEvents(names, st), st)
  {
    hide Canonical, TellsWhat, ReadsTurn, Msgs.StreamEvents, Msgs.ReadEvents;
    MessagesFollow(st.blocks);
    Msgs.MessagesIsCanonical(names, st);
    TurnIsRead(names, st.id, st.model, Msgs.Pieces(st.blocks), ResponseStatusFromClaudeStop(st.stopReason),
               Msgs.FinalUsage(st));
  }
}
