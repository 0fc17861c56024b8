/** Responses streams as bytes: a stream printed the way upstreams send it, cut
    anywhere, is converted as the events it prints. */
module ResponsesBytes {
  import opened Basics
  import opened LineFeed
  import opened FrameFeed
  import opened PrintedFrames
  import opened Wire
  import opened ResponsesEvents
  import Framing
  import ClaudeClient
  import ChatClient
  import ResponsesCalls
  import Claude = ResponsesToClaude
  import ClaudeMeaning = ResponsesClaudeMeaning
  import Chat = ResponsesToOpenAI
  import ChatMeaning = ResponsesOpenAIMeaning

  type PayloadDecoder = (string, string) -> Result<Payload, Failure>

  // ---- how upstreams print a stream ----

  /** What a payload says under its name. */
  predicate Says(name: string, p: Payload, ev: UpEvent) {
    match ev
    case Created(id, model) => name == "response.created" && id == p.id && model == p.model
    case OutputText(delta) => name == "response.output_text.delta" && delta == p.delta
    case OutputItem(item) => name in {"response.output_item.added", "response.output_item.done"} && item == p.item
    case ArgsFragment(itemId, delta) =>
      name == "response.function_call_arguments.delta" && itemId == p.itemId && delta == p.delta
    case Terminal(incomplete, input, output, details) =>
      && name == (if incomplete then "response.incomplete" else "response.completed")
      && input == p.input && output == p.output && details == p.details
    case Failed(failure) => name in {"response.failed", "error"} && failure == p.failure
    case Informational =>
      name !in {"response.created", "response.output_text.delta", "response.output_item.added",
                "response.output_item.done", "response.function_call_arguments.delta", "response.completed",
                "response.incomplete", "response.failed", "error"}
  }

  /** The item prints the event; its payload may end in a carriage return. */
  predicate Prints(decode: PayloadDecoder, item: Record, ev: UpEvent) {
    var name, data := if item.name.Some? then TrimSpace(item.name.value) else "", TrimCR(item.payload);
    && Printable(item)
    && if data == "" then Says(name, BLANK, ev) else decode(name, data).Ok? && Says(name, decode(name, data).value, ev)
  }

  predicate PrintsAll(decode: PayloadDecoder, items: seq<Record>, events: seq<UpEvent>) {
    |items| == |events| && forall k | 0 <= k < |items| :: Prints(decode, items[k], events[k])
  }

  lemma SaysIs(name: string, p: Payload, ev: UpEvent)
    ensures Says(name, p, ev) <==> EventOf(name, p) == ev
  {
  }

  lemma ItemDecodes(decode: PayloadDecoder, item: Record, ev: UpEvent)
    requires Prints(decode, item, ev)
    ensures Printable(item) && Named(decode)(FrameOfItem(item)) == Ok(ev)
  {
    hide TrimSpace, TrimCR, EventOf, Says;
    var frame := FrameOfItem(item);
    SaysIs(frame.eventType, BLANK, ev);
    if frame.data != "" { SaysIs(frame.eventType, decode(frame.eventType, frame.data).value, ev); }
  }

  lemma ItemsDecode(decode: PayloadDecoder, items: seq<Record>, events: seq<UpEvent>)
    requires PrintsAll(decode, items, events)
    ensures AllPrint(Named(decode), items, events)
  {
    hide Prints, FrameOfItem, Named;
    forall k | 0 <= k < |items|
      ensures Printable(items[k]) && Named(decode)(FrameOfItem(items[k])) == Ok(events[k])
    {
      assert Prints(decode, items[k], events[k]);
      ItemDecodes(decode, items[k], events[k]);
    }
  }

  /** A stream up to its terminal event. */
  function Whole(events: seq<UpEvent>, incomplete: bool, input: int, output: int, d: UsageDetails): seq<UpEvent> {
    events + [Terminal(incomplete, input, output, d)]
  }

  predicate AllOngoing(events: seq<UpEvent>) {
    forall k | 0 <= k < |events| :: ClaudeMeaning.Ongoing(events[k])
  }

  // ---- the Messages client ----

  function OnClaude(s: Claude.State, ev: UpEvent): Step<Claude.State, ClaudeClient.ClaudeEvent> {
    Claude.OnEvent(s, ev)
  }

  lemma ClaudeDispatches(decode: PayloadDecoder)
    ensures Dispatches(Named(decode), Claude.Frames(Named(decode)), OnClaude)
  {
    hide Named, Claude.OnEvent;
  }

  lemma {:induction false} ClaudeSteps(events: seq<UpEvent>)
    requires AllOngoing(events)
    ensures var run := Steps(OnClaude, Claude.Initial(), events);
            !run.done && run.err.None? && (run.state, run.events) == ClaudeMeaning.Run(events)
    decreases |events|
  {
    if events != [] {
      var init, ev := events[..|events| - 1], events[|events| - 1];
      assert init + [ev] == events;
      ClaudeSteps(init);
      StepsSnoc(OnClaude, Claude.Initial(), init, ev);
      ClaudeStep(ClaudeMeaning.Run(init).0, ev);
      hide Claude.OnEvent, Steps;
    }
  }

  lemma ClaudeStep(s: Claude.State, ev: UpEvent)
    ensures var step := Claude.OnEvent(s, ev);
            (step.done <==> ev.Terminal?) && (step.err.Some? <==> ev.Failed?)
  {
  }

  /** The bytes of a stream up to its terminal event, cut in any way: the Messages client
      receives what its events come to, and accepts it if response.created came first
      and once. */
  lemma {:induction false} PrintedStreamReachesMessages(decode: PayloadDecoder, items: seq<Record>,
                                                        events: seq<UpEvent>, incomplete: bool, input: int,
                                                        output: int, d: UsageDetails, cut: seq<string>)
    requires AllOngoing(events) && PrintsAll(decode, items, Whole(events, incomplete, input, output, d))
    requires Join(cut) == Print(items)
    ensures var all := Whole(events, incomplete, input, output, d);
            var out := FeedAll(Lines(false, Claude.Frames(Named(decode))), false,
                               Reader(Framing.EMPTY, Claude.Initial()), "", cut);
            var c := ClaudeClient.Read(false, ClaudeClient.NEW_CLIENT, out.events);
            && out.done && out.err.None? && out.events == ClaudeMeaning.Run(all).1
            && (c.Some? <==> ClaudeMeaning.CreatedFirst(all))
            && (c.Some? ==> c.value.ended && ClaudeClient.TextOf(c.value.blocks) == ResponsesCalls.Spoken(events))
  {
    hide Steps, FeedAll, AllPrint, PrintsAll, Print, Dispatches, ClaudeMeaning.Run, ClaudeClient.Read, Named,
         ClaudeMeaning.CreatedFirst, ResponsesCalls.Spoken, ClaudeClient.TextOf, ClaudeClient.Unheaded, Claude.OnEvent;
    var terminal := Terminal(incomplete, input, output, d);
    var all := Whole(events, incomplete, input, output, d);
    ItemsDecode(decode, items, all);
    ClaudeDispatches(decode);
    ClaudeSteps(events);
    StepsSnoc(OnClaude, Claude.Initial(), events, terminal);
    ClaudeStep(ClaudeMeaning.Run(events).0, terminal);
    ClaudeMeaning.RunSnoc(events, terminal);
    assert all[..|all| - 1] == events;
    PrintedIsFedLoosely(Named(decode), Claude.Frames(Named(decode)), OnClaude, Claude.Initial(), items, all, cut);
    ClaudeMeaning.EveryStreamIsAccepted(events, incomplete, input, output, d);
  }

  // ---- the Chat Completions client ----

  function OnChat(s: Chat.State, ev: UpEvent): Step<Chat.State, ChatClient.ChatEvent> {
    Chat.OnEvent(s, ev)
  }

  lemma ChatDispatches(decode: PayloadDecoder)
    ensures Dispatches(Named(decode), Chat.Frames(Named(decode)), OnChat)
  {
    hide Named, Chat.OnEvent;
  }

  lemma {:induction false} ChatSteps(events: seq<UpEvent>)
    requires AllOngoing(events)
    ensures var run := Steps(OnChat, Chat.Initial(), events);
            !run.done && run.err.None? && (run.state, run.events) == ChatMeaning.Run(events)
    decreases |events|
  {
    if events != [] {
      var init, ev := events[..|events| - 1], events[|events| - 1];
      assert init + [ev] == events;
      ChatSteps(init);
      StepsSnoc(OnChat, Chat.Initial(), init, ev);
      ChatStep(ChatMeaning.Run(init).0, ev);
      hide Chat.OnEvent, Steps;
    }
  }

  lemma ChatStep(s: Chat.State, ev: UpEvent)
    ensures var step := Chat.OnEvent(s, ev);
            (step.done <==> ev.Terminal?) && (step.err.Some? <==> ev.Failed?)
  {
  }

  /** The Chat Completions client, likewise. */
  lemma {:induction false} PrintedStreamReachesChat(decode: PayloadDecoder, items: seq<Record>, events: seq<UpEvent>,
                                                    incomplete: bool, input: int, output: int, d: UsageDetails,
                                                    cut: seq<string>)
    requires AllOngoing(events) && PrintsAll(decode, items, Whole(events, incomplete, input, output, d))
    requires Join(cut) == Print(items)
    ensures var all := Whole(events, incomplete, input, output, d);
            var out := FeedAll(Lines(false, Chat.Frames(Named(decode))), false,
                               Reader(Framing.EMPTY, Chat.Initial()), "", cut);
            out.done && out.err.None? && out.events == ChatMeaning.Run(all).1
  {
    hide Steps, FeedAll, AllPrint, PrintsAll, Print, Dispatches, ChatMeaning.Run, Named, Chat.OnEvent;
    var terminal := Terminal(incomplete, input, output, d);
    var all := Whole(events, incomplete, input, output, d);
    ItemsDecode(decode, items, all);
    ChatDispatches(decode);
    ChatSteps(events);
    StepsSnoc(OnChat, Chat.Initial(), events, terminal);
    ChatStep(ChatMeaning.Run(events).0, terminal);
    ChatMeaning.RunSnoc(events, terminal);
    assert all[..|all| - 1] == events;
    PrintedIsFedLoosely(Named(decode), Chat.Frames(Named(decode)), OnChat, Chat.Initial(), items, all, cut);
  }
}
