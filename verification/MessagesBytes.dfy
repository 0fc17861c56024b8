/** Messages streams as bytes: a stream printed the way upstreams send it, cut
    anywhere, is converted as the events it prints. */
module MessagesBytes {
  import opened Basics
  import opened LineFeed
  import opened FrameFeed
  import opened PrintedFrames
  import opened ResponseTools
  import opened Wire
  import Framing
  import M = MessagesEvents
  import Client = ChatClient
  import Chat = MessagesToOpenAI
  import Responses = MessagesToResponses
  import opened ResponsesTurn
  import opened TurnPieces
  import Pieces = MessagesPieces
  import Meaning = MessagesMeaning
  import StreamedItems

  // ---- how upstreams print a stream ----

  /** The name of an event: that of its event line, or else the type of its payload. */
  function NameOf(item: Record, p: M.Payload): string {
    if item.name.Some? && TrimSpace(item.name.value) != "" then TrimSpace(item.name.value) else p.kind
  }

  /** What a decoded payload says under its name. */
  predicate Says(name: string, p: M.Payload, ev: M.Event) {
    match ev
    case MessageStart(id, model, usage) =>
      name == "message_start" && id == p.id && model == p.model && usage == p.startUsage
    case BlockStart(index, kind, id, toolName) =>
      && name == "content_block_start" && index == p.index && kind == p.blockKind && id == p.blockId
      && toolName == p.blockName
    case TextFragment(index, text) =>
      name == "content_block_delta" && p.deltaKind == "text_delta" && index == p.index && text == p.text
    case JsonFragment(index, partial) =>
      name == "content_block_delta" && p.deltaKind == "input_json_delta" && index == p.index && partial == p.partialJson
    case MessageDelta(stop, usage) => name == "message_delta" && stop == p.stopReason && usage == p.usage
    case MessageStop => name == "message_stop"
    case Failed(failure) => name == "error" && failure == p.error
    case Other =>
      || name !in {"message_start", "content_block_start", "content_block_delta", "message_delta", "message_stop",
                   "error"}
      || (name == "content_block_delta" && p.deltaKind !in {"text_delta", "input_json_delta"})
  }

  /** The item prints the event; its payload may end in a carriage return.  An empty one
      has nothing in it. */
  predicate Prints(decode: M.Decoder, item: Record, ev: M.Event) {
    var data := TrimCR(item.payload);
    && Printable(item)
    && if data == "" then Says(NameOf(item, M.BLANK), M.BLANK, ev)
       else decode(data).Ok? && Says(NameOf(item, decode(data).value), decode(data).value, ev)
  }

  predicate PrintsAll(decode: M.Decoder, items: seq<Record>, events: seq<M.Event>) {
    |items| == |events| && forall k | 0 <= k < |items| :: Prints(decode, items[k], events[k])
  }

  /** Frames, as the converters decode them. */
  function Decoded(decode: M.Decoder): Decoding<M.Event> {
    frame => M.Decode(decode, frame)
  }

  lemma ItemDecodes(decode: M.Decoder, item: Record, ev: M.Event)
    requires Prints(decode, item, ev)
    ensures Printable(item) && M.Decode(decode, FrameOfItem(item)) == Ok(ev)
  {
    hide TrimSpace, TrimCR;
  }

  lemma ItemsDecode(decode: M.Decoder, items: seq<Record>, events: seq<M.Event>)
    requires PrintsAll(decode, items, events)
    ensures AllPrint(Decoded(decode), items, events)
  {
    hide Prints, FrameOfItem, M.Decode;
    forall k | 0 <= k < |items|
      ensures Printable(items[k]) && Decoded(decode)(FrameOfItem(items[k])) == Ok(events[k])
    {
      assert Prints(decode, items[k], events[k]);
      ItemDecodes(decode, items[k], events[k]);
    }
  }

  // ---- the client of a chat route ----

  function OnChat(s: Chat.State, ev: M.Event): Step<Chat.State, Client.ChatEvent> {
    Chat.OnEvent(s, ev)
  }

  lemma ChatDispatches(decode: M.Decoder)
    ensures Dispatches(Decoded(decode), Chat.Frames(decode), OnChat)
  {
    hide M.Decode, Chat.OnEvent;
  }

  /** The event that ends a stream is its last. */
  predicate StopsLast(events: seq<M.Event>) {
    forall k | 0 <= k < |events| - 1 :: !events[k].MessageStop?
  }

  lemma {:induction false} ChatSteps(events: seq<M.Event>)
    requires StopsLast(events)
    ensures Steps(OnChat, Chat.Initial(), events) == Chat.Run(events)
    ensures Chat.Run(events).done ==> events != [] && events[|events| - 1].MessageStop?
    decreases |events|
  {
    if events != [] {
      var init, ev := events[..|events| - 1], events[|events| - 1];
      assert init + [ev] == events;
      ChatSteps(init);
      StepsSnoc(OnChat, Chat.Initial(), init, ev);
      OnlyStopIsDone(Chat.Run(init).state, ev);
      hide Chat.OnEvent, Steps;
    }
  }

  lemma OnlyStopIsDone(s: Chat.State, ev: M.Event)
    ensures Chat.OnEvent(s, ev).done <==> ev.MessageStop?
    ensures Chat.OnEvent(s, ev).done ==> Chat.OnEvent(s, ev).err.None?
  {
    hide Chat.OnJson;
  }

  /** The bytes of any events, cut in any way: the Chat Completions client receives what
      the events come to, and the stream is over with message_stop. */
  lemma {:induction false} PrintedStreamReachesChat(decode: M.Decoder, items: seq<Record>, events: seq<M.Event>,
                                                    cut: seq<string>)
    requires PrintsAll(decode, items, events) && StopsLast(events) && Join(cut) == Print(items)
    ensures var out := FeedAll(Lines(false, Chat.Frames(decode)), true, Reader(Framing.EMPTY, Chat.Initial()), "", cut);
            && (out.err.Some? <==> Chat.FailsSomewhere(events))
            && (out.err.None? ==>
                  && (out.done <==> events != [] && events[|events| - 1].MessageStop?)
                  && var r := Client.Read(Client.NO_REPLY, out.events);
                  r.Some? && Chat.Follows(Chat.Run(events).state, r.value, events))
  {
    hide Steps, FeedAll, AllPrint, PrintsAll, Decoded, Print, Dispatches, Chat.Follows, Chat.FailsSomewhere,
         Client.Read, StopsLast, Chat.Run;
    ChatDispatches(decode);
    ItemsDecode(decode, items, events);
    PrintedIsFed(Decoded(decode), Chat.Frames(decode), OnChat, Chat.Initial(), items, events, cut);
    ChatSteps(events);
    Chat.ReplyIsRead(events);
    StopIsDone(events);
  }

  lemma {:induction false} StopIsDone(events: seq<M.Event>)
    ensures events != [] && events[|events| - 1].MessageStop? && Chat.Run(events).err.None? ==> Chat.Run(events).done
  {
    if events != [] { OnlyStopIsDone(Chat.Run(events[..|events| - 1]).state, events[|events| - 1]); }
  }

  // ---- the client of a Responses route ----

  function OnResponses(names: ToolNames): (Responses.State, M.Event) -> Step<Responses.State, Event> {
    (s, ev) => var o := Responses.OnEvent(names, s, ev); Step(o.state, o.events, o.done, o.err)
  }

  lemma ResponsesDispatches(decode: M.Decoder, names: ToolNames)
    ensures Dispatches(Decoded(decode), Responses.Frames(decode, names), OnResponses(names))
  {
    hide M.Decode, Responses.OnEvent;
  }

  /** While nothing ends or fails, the steps are the run. */
  ghost predicate GoesOn(names: ToolNames, events: seq<M.Event>) {
    var run := Steps(OnResponses(names), Responses.Initial(), events);
    !run.done && run.err.None? && (run.state, run.events) == Pieces.Run(names, Responses.Initial(), events)
  }

  lemma OneMore(names: ToolNames, events: seq<M.Event>, ev: M.Event)
    requires GoesOn(names, events)
    ensures var o := Responses.OnEvent(names, Pieces.Run(names, Responses.Initial(), events).0, ev);
            var run := Steps(OnResponses(names), Responses.Initial(), events + [ev]);
            && run.done == o.done && run.err == o.err
            && (run.state, run.events) == Pieces.Run(names, Responses.Initial(), events + [ev])
            && (!o.done && o.err.None? ==> GoesOn(names, events + [ev]))
  {
    hide Responses.OnEvent, Steps, Pieces.Run;
    StepsSnoc(OnResponses(names), Responses.Initial(), events, ev);
    Pieces.RunSnoc(names, Responses.Initial(), events, ev);
  }

  /** The blocks of a well-formed stream neither end it nor fail. */
  lemma {:induction false} BlocksGoOn(names: ToolNames, start: M.Event, blocks: seq<M.Event>)
    requires start.MessageStart? && Pieces.WellFormed(blocks)
    ensures GoesOn(names, [start] + blocks)
    decreases |blocks|
  {
    if blocks == [] {
      assert [start] + blocks == [] + [start];
      assert GoesOn(names, []);
      OneMore(names, [], start);
    } else {
      hide Responses.OnEvent, GoesOn;
      var init, ev := blocks[..|blocks| - 1], blocks[|blocks| - 1];
      BlocksGoOn(names, start, init);
      BlockGoesOn(names, start, init, ev);
      OneMore(names, [start] + init, ev);
      assert [start] + init + [ev] == [start] + blocks;
    }
  }

  lemma {:induction false} BlockGoesOn(names: ToolNames, start: M.Event, blocks: seq<M.Event>, ev: M.Event)
    requires start.MessageStart? && Pieces.WellFormed(blocks) && Pieces.Fits(Pieces.ReadEvents(blocks).0, ev)
    ensures var o := Responses.OnEvent(names, Pieces.Run(names, Responses.Initial(), [start] + blocks).0, ev);
            !o.done && o.err.None?
  {
    hide Responses.OnEvent, Pieces.Run, Pieces.Reads, Pieces.Fits, Pieces.ReadEvent, Pieces.ReadEvents,
         Pieces.WellFormed, Play;
    Pieces.StartRuns(names, Pieces.Stream(start.id, start.model, start.usage, blocks, "", M.NO_COUNTS));
    Pieces.RunAppend(names, Responses.Initial(), [start], blocks);
    var s1 := Pieces.Run(names, Responses.Initial(), [start]).0;
    Pieces.BlocksRun(names, s1, blocks);
    var (s, _) := Pieces.Run(names, s1, blocks);
    var (r, pieces) := Pieces.ReadEvents(blocks);
    var t := Play(names, NewTurn(s1.msgId), pieces).0;
    var order :| Meaning.Stands(s, order, t) && Meaning.InMap(s.blocks, order) && Pieces.Reads(s, order, t, r);
    Pieces.EventReads(names, s, order, t, r, ev);
  }

  /** The bytes of a well-formed stream, cut in any way: the Responses client receives
      the turn it tells, item by item. */
  lemma {:induction false} PrintedStreamReachesResponses(decode: M.Decoder, names: ToolNames, items: seq<Record>,
                                                         st: Pieces.Stream, cut: seq<string>)
    requires PrintsAll(decode, items, Pieces.EventsOf(st)) && Pieces.WellFormed(st.blocks) && Join(cut) == Print(items)
    ensures var out := FeedAll(Lines(false, Responses.Frames(decode, names)), true,
                               Reader(Framing.EMPTY, Responses.Initial()), "", cut);
            out.done && out.err.None? && StreamedItems.MessagesTurnIsRead(names, out.events, st)
  {
    hide Steps, FeedAll, AllPrint, PrintsAll, Decoded, Print, Dispatches, GoesOn, Pieces.Run, Responses.TerminalOf,
         StreamedItems.MessagesTurnIsRead, Pieces.WellFormed;
    var start, delta := M.MessageStart(st.id, st.model, st.startUsage), M.MessageDelta(st.stopReason, st.usage);
    BlocksGoOn(names, start, st.blocks);
    OneMore(names, [start] + st.blocks, delta);
    OneMore(names, [start] + st.blocks + [delta], M.MessageStop);
    assert [start] + st.blocks + [delta] + [M.MessageStop] == Pieces.EventsOf(st);
    ResponsesDispatches(decode, names);
    ItemsDecode(decode, items, Pieces.EventsOf(st));
    PrintedIsFed(Decoded(decode), Responses.Frames(decode, names), OnResponses(names), Responses.Initial(), items,
                 Pieces.EventsOf(st), cut);
    StreamedItems.MessagesStreamIsRead(names, st);
  }
}
