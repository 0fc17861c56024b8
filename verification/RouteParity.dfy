/** The two Responses synthesizers are one: streams that mean the same turn come
    out as the same events, whichever protocol the upstream speaks. */
module RouteParity {
  import opened Basics
  import opened ResponseTools
  import opened Wire
  import opened ChatChunks
  import opened TurnPieces
  import Chat = ChatMeaning
  import ChatConv = ChatToResponses
  import Msgs = MessagesPieces
  import M = MessagesEvents

  /** Any two well-formed streams with the same identity, pieces, status and
      usage are rendered as the same event sequence. */
  lemma SamePiecesSameEvents(names: ToolNames, chunks: seq<Chunk>, trailer: seq<Chunk>, st: Msgs.Stream)
    requires Chat.WellFormed(chunks, trailer) && Msgs.WellFormed(st.blocks)
    requires chunks[0].id == st.id && chunks[0].model == st.model
    requires Chat.Pieces(chunks) == Msgs.Pieces(st.blocks)
    requires ResponseStatusFromFinish(chunks[|chunks| - 1].choices[0].finish) ==
               ResponseStatusFromClaudeStop(st.stopReason)
    requires ChatConv.UsageOf(Chat.UsageAtTerminal(chunks, trailer)) == Msgs.FinalUsage(st)
    ensures Chat.StreamEvents(names, chunks, trailer) == Msgs.StreamEvents(names, st)
  {
    hide Canonical, Chat.Pieces, Msgs.Pieces;
    Chat.ChatIsCanonical(names, chunks, trailer);
    Msgs.MessagesIsCanonical(names, st);
  }

  // ---- one abstract turn, encoded both ways ----

  /** A turn: text fragments, calls, and argument fragments of the latest call. */
  datatype Part =
    | Text(text: string)
    | Call(id: string, name: string)
    | Args(fragment: string)

  function Calls(parts: seq<Part>): nat {
    if parts == [] then 0 else Calls(parts[..|parts| - 1]) + if parts[|parts| - 1].Call? then 1 else 0
  }

  predicate HasText(parts: seq<Part>) {
    exists k | 0 <= k < |parts| :: parts[k].Text?
  }

  /** Fragments are non-empty, and arguments follow a call. */
  predicate IsTurn(parts: seq<Part>) {
    parts == []
    || var init, last := parts[..|parts| - 1], parts[|parts| - 1];
       IsTurn(init)
       && match last
          case Text(text) => text != ""
          case Call(_, _) => true
          case Args(f) => f != "" && Calls(init) > 0
  }

  function PartPieces(parts: seq<Part>): seq<Piece> {
    if parts == [] then []
    else
      var init := parts[..|parts| - 1];
      PartPieces(init) +
      match parts[|parts| - 1]
      case Text(text) => (if HasText(init) then [] else [BeginText]) + [Say(text)]
      case Call(id, name) => [Start(id, name)]
      case Args(f) => if Calls(init) == 0 then [] else [Feed(Calls(init) - 1, f)]
  }

  // ---- as Chat Completions chunks: one chunk a part ----

  function Delta(id: string, model: string, content: string, calls: seq<ToolCallDelta>, finish: string): Chunk {
    Chunk(id, model, [Choice(content, calls, finish)], None)
  }

  function ChatPart(id: string, model: string, calls: nat, part: Part): Chunk {
    match part
    case Text(text) => Delta(id, model, text, [], "")
    case Call(callId, name) => Delta(id, model, "", [ToolCallDelta(calls, callId, name, "")], "")
    case Args(f) => Delta(id, model, "", [ToolCallDelta(calls - 1, "", "", f)], "")
  }

  /** The leading role chunk, then the parts. */
  function ChatBody(id: string, model: string, parts: seq<Part>): (r: seq<Chunk>)
    ensures |r| == |parts| + 1 && r[0] == Delta(id, model, "", [], "")
    ensures forall k | 0 <= k < |r| :: |r[k].choices| == 1 && r[k].choices[0].finish == "" && r[k].usage == None
  {
    if parts == [] then [Delta(id, model, "", [], "")]
    else
      var init := parts[..|parts| - 1];
      ChatBody(id, model, init) + [ChatPart(id, model, Calls(init), parts[|parts| - 1])]
  }

  function ChatChunksOf(id: string, model: string, parts: seq<Part>, finish: string): seq<Chunk> {
    ChatBody(id, model, parts) + [Delta(id, model, "", [], finish)]
  }

  /** The include_usage trailer: prompt tokens count the cached ones. */
  function UsageTrailer(id: string, model: string, input: int, output: int, cached: Option<int>): seq<Chunk> {
    [Chunk(id, model, [], Some(Usage(input + ValueOrZero(cached), output, cached, None)))]
  }

  // ---- as Messages events: consecutive text shares a block ----

  /** The events so far, the next block index, whether the latest block is text,
      and the index of the latest tool block. */
  datatype Encoded = Encoded(events: seq<M.Event>, next: nat, inText: bool, tool: nat)

  function MessagesOf(parts: seq<Part>): Encoded {
    if parts == [] then Encoded([], 0, false, 0)
    else
      var e := MessagesOf(parts[..|parts| - 1]);
      match parts[|parts| - 1]
      case Text(text) =>
        if e.inText then e.(events := e.events + [M.TextFragment(e.next - 1, text)])
        else Encoded(e.events + [M.BlockStart(e.next, "text", "", ""), M.TextFragment(e.next, text)], e.next + 1, true,
                     e.tool)
      case Call(id, name) =>
        Encoded(e.events + [M.BlockStart(e.next, "tool_use", id, name)], e.next + 1, false, e.next)
      case Args(f) => e.(events := e.events + [M.JsonFragment(e.tool, f)])
  }

  // ---- both encodings mean the turn ----

  lemma ReadChunksSnoc(chunks: seq<Chunk>, last: Chunk)
    requires last.choices != []
    ensures var (r1, p1) := Chat.ReadChunks(chunks);
            var (r2, p2) := Chat.ReadChoice(r1, last.choices[0]);
            Chat.ReadChunks(chunks + [last]) == (r2, p1 + p2)
  {
    assert (chunks + [last])[..|chunks|] == chunks;
  }

  lemma ReadOneCall(r: Chat.Reading, tc: ToolCallDelta)
    ensures Chat.ReadCalls(r, [tc]) == (Chat.ReadCall(r, tc).0, Chat.ReadCall(r, tc).1)
  {
    assert [tc][..0] == [];
    assert Chat.ReadCalls(r, []) == (r, []);
    assert [] + Chat.ReadCall(r, tc).1 == Chat.ReadCall(r, tc).1;
  }

  function UpTo(n: nat): (r: seq<int>)
    ensures |r| == n && forall k | 0 <= k < n :: r[k] == k
  {
    seq(n, k => k)
  }

  lemma ChatPartStep(id: string, model: string, body: seq<Chunk>, init: seq<Part>, last: Part)
    requires Chat.ReadChunks(body) == (Chat.Reading(UpTo(Calls(init)), HasText(init)), PartPieces(init))
    requires IsTurn(init + [last])
    ensures Chat.ReadChunks(body + [ChatPart(id, model, Calls(init), last)]) ==
            (Chat.Reading(UpTo(Calls(init + [last])), HasText(init + [last])), PartPieces(init + [last]))
  {
    hide Chat.ReadChoice, Chat.ReadChunks, HasText;
    var r := Chat.Reading(UpTo(Calls(init)), HasText(init));
    assert (init + [last])[..|init|] == init;
    ReadChunksSnoc(body, ChatPart(id, model, Calls(init), last));
    ChatPartMeans(id, model, r, Calls(init), last);
    HasTextSnoc(init, last);
  }

  lemma {:induction false} ChatMeansParts(id: string, model: string, parts: seq<Part>)
    requires IsTurn(parts)
    ensures var (r, pieces) := Chat.ReadChunks(ChatBody(id, model, parts));
            r == Chat.Reading(UpTo(Calls(parts)), HasText(parts)) && pieces == PartPieces(parts)
    decreases |parts|
  {
    if parts == [] {
      ReadChunksSnoc([], Delta(id, model, "", [], ""));
      assert [] + [Delta(id, model, "", [], "")] == [Delta(id, model, "", [], "")];
      assert UpTo(0) == [];
    } else {
      hide Chat.ReadChunks, ChatPart, HasText, PartPieces;
      var init, last := parts[..|parts| - 1], parts[|parts| - 1];
      assert init + [last] == parts;
      ChatMeansParts(id, model, init);
      ChatPartStep(id, model, ChatBody(id, model, init), init, last);
    }
  }

  lemma HasTextSnoc(init: seq<Part>, last: Part)
    ensures HasText(init + [last]) <==> HasText(init) || last.Text?
  {
    var parts := init + [last];
    assert parts[|init|] == last;
    if HasText(init) {
      var k :| 0 <= k < |init| && init[k].Text?;
      assert parts[k].Text?;
    }
  }

  lemma ChatPartMeans(id: string, model: string, r: Chat.Reading, n: nat, part: Part)
    requires r.seen == UpTo(n)
    requires match part case Text(text) => text != "" case Call(_, _) => true case Args(f) => f != "" && n > 0
    ensures Chat.ReadChoice(r, ChatPart(id, model, n, part).choices[0]) ==
            match part
            case Text(text) => (r.(begun := true), (if r.begun then [] else [BeginText]) + [Say(text)])
            case Call(callId, name) => (r.(seen := UpTo(n + 1)), [Start(callId, name)])
            case Args(f) => (r, [Feed(n - 1, f)])
  {
    match part
    case Text(text) =>
      var said := (if r.begun then [] else [BeginText]) + [Say(text)];
      assert said + [] == said;
    case Call(callId, name) =>
      var tc := ToolCallDelta(n, callId, name, "");
      ReadOneCall(r, tc);
      assert n !in r.seen;
      assert UpTo(n) + [n] == UpTo(n + 1);
      assert [Start(callId, name)] + [] == [Start(callId, name)] && [] + [Start(callId, name)] == [Start(callId, name)];
    case Args(f) =>
      var tc := ToolCallDelta(n - 1, "", "", f);
      ReadOneCall(r, tc);
      assert r.seen[n - 1] == n - 1;
      NumberIs(r.seen, n - 1);
      assert [] + [Feed(n - 1, f)] == [Feed(n - 1, f)];
      assert [] + ([] + [Feed(n - 1, f)]) == [Feed(n - 1, f)];
  }

  lemma ReadEventsSnoc(events: seq<M.Event>, last: M.Event)
    ensures var (r1, p1) := Msgs.ReadEvents(events);
            var (r2, p2) := Msgs.ReadEvent(r1, last);
            Msgs.ReadEvents(events + [last]) == (r2, p1 + p2)
    ensures Msgs.WellFormed(events + [last]) <==> Msgs.WellFormed(events) && Msgs.Fits(Msgs.ReadEvents(events).0, last)
  {
    assert (events + [last])[..|events|] == events;
  }

  /** The reading of the encoded events follows the encoder's state. */
  ghost predicate Follows(r: Msgs.Reading, e: Encoded, parts: seq<Part>) {
    && r.last == (if e.next == 0 then None else Some(e.next - 1))
    && (e.inText ==> e.next > 0 && e.next - 1 in r.texts) && (r.spoken.Some? ==> r.spoken.value < e.next)
    && r.begun == HasText(parts)
    && |r.tools| == Calls(parts)
    && (forall i, j | 0 <= i < j < |r.tools| :: r.tools[i] < r.tools[j])
    && (forall k | 0 <= k < |r.tools| :: r.tools[k] < e.next)
    && (r.tools != [] ==> r.tools[|r.tools| - 1] == e.tool)
  }

  lemma TextFollows(e: Encoded, init: seq<Part>, text: string)
    requires Msgs.WellFormed(e.events) && Follows(Msgs.ReadEvents(e.events).0, e, init) && text != ""
    requires e.inText ==> HasText(init)
    ensures var e' := if e.inText then e.(events := e.events + [M.TextFragment(e.next - 1, text)])
                      else Encoded(e.events + [M.BlockStart(e.next, "text", "", ""), M.TextFragment(e.next, text)],
                                   e.next + 1, true, e.tool);
            && Msgs.WellFormed(e'.events) && Follows(Msgs.ReadEvents(e'.events).0, e', init + [Text(text)])
            && Msgs.ReadEvents(e'.events).1 ==
               Msgs.ReadEvents(e.events).1 + ((if HasText(init) then [] else [BeginText]) + [Say(text)])
  {
    hide Msgs.WellFormed, Msgs.ReadEvents, HasText;
    HasTextSnoc(init, Text(text));
    CallsSnoc(init, Text(text));
    if e.inText {
      ReadEventsSnoc(e.events, M.TextFragment(e.next - 1, text));
      assert [] + [Say(text)] == [Say(text)];
    } else {
      var start, fragment := M.BlockStart(e.next, "text", "", ""), M.TextFragment(e.next, text);
      ReadEventsSnoc(e.events, start);
      ReadEventsSnoc(e.events + [start], fragment);
      assert e.events + [start, fragment] == (e.events + [start]) + [fragment];
      var pieces := Msgs.ReadEvents(e.events).1;
      var began := if HasText(init) then [] else [BeginText];
      assert (pieces + began) + [Say(text)] == pieces + (began + [Say(text)]);
    }
  }

  lemma CallFollows(e: Encoded, init: seq<Part>, id: string, name: string)
    requires Msgs.WellFormed(e.events) && Follows(Msgs.ReadEvents(e.events).0, e, init)
    ensures var e' := Encoded(e.events + [M.BlockStart(e.next, "tool_use", id, name)], e.next + 1, false, e.next);
            && Msgs.WellFormed(e'.events) && Follows(Msgs.ReadEvents(e'.events).0, e', init + [Part.Call(id, name)])
            && Msgs.ReadEvents(e'.events).1 == Msgs.ReadEvents(e.events).1 + [Start(id, name)]
  {
    hide Msgs.WellFormed, Msgs.ReadEvents, HasText;
    HasTextSnoc(init, Part.Call(id, name));
    CallsSnoc(init, Part.Call(id, name));
    ReadEventsSnoc(e.events, M.BlockStart(e.next, "tool_use", id, name));
  }

  lemma ArgsFollow(e: Encoded, init: seq<Part>, f: string)
    requires Msgs.WellFormed(e.events) && Follows(Msgs.ReadEvents(e.events).0, e, init) && Calls(init) > 0
    ensures var e' := e.(events := e.events + [M.JsonFragment(e.tool, f)]);
            && Msgs.WellFormed(e'.events) && Follows(Msgs.ReadEvents(e'.events).0, e', init + [Args(f)])
            && Msgs.ReadEvents(e'.events).1 == Msgs.ReadEvents(e.events).1 + [Feed(Calls(init) - 1, f)]
  {
    hide Msgs.WellFormed, Msgs.ReadEvents, HasText;
    HasTextSnoc(init, Args(f));
    CallsSnoc(init, Args(f));
    var tools := Msgs.ReadEvents(e.events).0.tools;
    assert tools[|tools| - 1] == e.tool;
    NumberIs(tools, |tools| - 1);
    ReadEventsSnoc(e.events, M.JsonFragment(e.tool, f));
  }

  lemma CallsSnoc(init: seq<Part>, last: Part)
    ensures Calls(init + [last]) == Calls(init) + if last.Call? then 1 else 0
  {
    assert (init + [last])[..|init|] == init;
  }

  lemma NothingMeansNothing()
    ensures Msgs.WellFormed([]) && Follows(Msgs.ReadEvents([]).0, MessagesOf([]), []) && Msgs.ReadEvents([]).1 == []
  {
  }

  ghost predicate MeansParts(e: Encoded, parts: seq<Part>) {
    var (r, pieces) := Msgs.ReadEvents(e.events);
    Msgs.WellFormed(e.events) && Follows(r, e, parts) && pieces == PartPieces(parts)
  }

  lemma {:induction false} TextMeans(init: seq<Part>, text: string)
    requires MeansParts(MessagesOf(init), init) && text != ""
    ensures MeansParts(MessagesOf(init + [Text(text)]), init + [Text(text)])
  {
    hide Msgs.WellFormed, Msgs.ReadEvents, Follows, HasText;
    var e := MessagesOf(init);
    assert (init + [Text(text)])[..|init|] == init;
    if e.inText { TextSeen(init); }
    TextFollows(e, init, text);
  }

  lemma {:induction false} CallMeans(init: seq<Part>, last: Part)
    requires MeansParts(MessagesOf(init), init) && !last.Text? && (last.Args? ==> Calls(init) > 0)
    ensures MeansParts(MessagesOf(init + [last]), init + [last])
  {
    hide Msgs.WellFormed, Msgs.ReadEvents, Follows, HasText, Calls;
    var e := MessagesOf(init);
    assert (init + [last])[..|init|] == init;
    match last
    case Call(id, name) => CallFollows(e, init, id, name);
    case Args(f) => ArgsFollow(e, init, f);
  }

  lemma {:induction false} MessagesMeanParts(parts: seq<Part>)
    requires IsTurn(parts)
    ensures MeansParts(MessagesOf(parts), parts)
    decreases |parts|
  {
    if parts == [] {
      NothingMeansNothing();
    } else {
      hide MeansParts, MessagesOf, Calls;
      var init, last := parts[..|parts| - 1], parts[|parts| - 1];
      assert init + [last] == parts;
      MessagesMeanParts(init);
      if last.Text? { TextMeans(init, last.text); } else { CallMeans(init, last); }
    }
  }

  lemma {:induction false} TextSeen(parts: seq<Part>)
    requires MessagesOf(parts).inText
    ensures HasText(parts)
    decreases |parts|
  {
    var init, last := parts[..|parts| - 1], parts[|parts| - 1];
    assert init + [last] == parts;
    HasTextSnoc(init, last);
    if !last.Text? { TextSeen(init); }
  }

  lemma FinalUsageParity(id: string, model: string, events: seq<M.Event>, stop: string, chunks: seq<Chunk>,
                         input: int, output: int, cached: Option<int>)
    ensures ChatConv.UsageOf(Chat.UsageAtTerminal(chunks, UsageTrailer(id, model, input, output, cached))) ==
            Msgs.FinalUsage(Msgs.Stream(id, model, M.Counts(input, 0, cached, None), events, stop,
                                        M.Counts(0, output, None, None)))
  {
    var trailer := UsageTrailer(id, model, input, output, cached);
    assert (chunks + [trailer[0]])[..|chunks|] == chunks;
  }

  lemma ChatStreamMeansParts(id: string, model: string, parts: seq<Part>, finish: string)
    requires IsTurn(parts)
    ensures Chat.Pieces(ChatChunksOf(id, model, parts, finish)) == PartPieces(parts)
  {
    hide Chat.ReadChunks, PartPieces, ChatBody;
    var body, last := ChatBody(id, model, parts), Delta(id, model, "", [], finish);
    ChatMeansParts(id, model, parts);
    ReadChunksSnoc(body, last);
    assert PartPieces(parts) + ([] + []) == PartPieces(parts);
  }

  lemma ChatStreamShape(id: string, model: string, parts: seq<Part>, finish: string, trailer: seq<Chunk>)
    requires finish != "" && forall k | 0 <= k < |trailer| :: trailer[k].choices == []
    ensures var chunks := ChatChunksOf(id, model, parts, finish);
            && chunks != [] && chunks[|chunks| - 1].choices[0].finish == finish
            && chunks[0].id == id && chunks[0].model == model
            && Chat.WellFormed(chunks, trailer)
  {
  }

  lemma MessagesPiecesAre(parts: seq<Part>)
    requires IsTurn(parts)
    ensures Msgs.Pieces(MessagesOf(parts).events) == PartPieces(parts)
  {
    MessagesMeanParts(parts);
  }

  /** Route parity: any turn, encoded once as Chat Completions chunks and once as
      Messages events, reaches a Responses client as the same events. */
  lemma RouteParity(names: ToolNames, id: string, model: string, parts: seq<Part>, finish: string,
                    input: int, output: int, cached: Option<int>)
    requires IsTurn(parts) && finish != ""
    ensures Chat.StreamEvents(names, ChatChunksOf(id, model, parts, finish),
                              UsageTrailer(id, model, input, output, cached)) ==
            Msgs.StreamEvents(names, Msgs.Stream(id, model, M.Counts(input, 0, cached, None), MessagesOf(parts).events,
                                                 FinishToClaudeStop(finish), M.Counts(0, output, None, None)))
  {
    hide Msgs.StreamEvents, Chat.StreamEvents, Msgs.WellFormed, Msgs.ReadEvents, Chat.ReadChunks, Chat.WellFormed,
         ChatChunksOf, Chat.Pieces, Msgs.Pieces, Follows, IsTurn,
         Msgs.FinalUsage, Chat.UsageAtTerminal, ChatConv.UsageOf, FinishToClaudeStop, ResponseStatusFromFinish,
         ResponseStatusFromClaudeStop;
    ChatStreamMeansParts(id, model, parts, finish);
    ChatStreamShape(id, model, parts, finish, UsageTrailer(id, model, input, output, cached));
    MessagesMeanParts(parts);
    assert Msgs.Pieces(MessagesOf(parts).events) == PartPieces(parts) by { MessagesPiecesAre(parts); }
    FinalUsageParity(id, model, MessagesOf(parts).events, FinishToClaudeStop(finish),
                     ChatChunksOf(id, model, parts, finish), input, output, cached);
    StopReasonsRoundTrip("", finish);
    SamePiecesSameEvents(names, ChatChunksOf(id, model, parts, finish), UsageTrailer(id, model, input, output, cached),
                         Msgs.Stream(id, model, M.Counts(input, 0, cached, None), MessagesOf(parts).events,
                                     FinishToClaudeStop(finish), M.Counts(0, output, None, None)));
  }
}
