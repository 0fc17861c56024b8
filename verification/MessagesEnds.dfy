/** Where a Messages stream, whatever it sends, fails and ends for a Responses client. */
module MessagesEnds {
  import opened Basics
  import opened LineFeed
  import opened ResponseTools
  import opened Wire
  import opened MessagesToResponses
  import opened ChatTerminals
  import M = MessagesEvents
  import Pieces = MessagesPieces
  import Chat = MessagesToOpenAI

  // ---- what the events say ----

  /** The kind of the block last started under an index. */
  function KindAt(events: seq<M.Event>, index: int): Option<string> {
    if events == [] then None
    else match events[|events| - 1]
      case BlockStart(i, kind, _, _) => if i == index then Some(kind) else KindAt(events[..|events| - 1], index)
      case _ => KindAt(events[..|events| - 1], index)
  }

  /** The model of the last message_start, and the reason of the last message_delta. */
  function Ending(events: seq<M.Event>): (string, string) {
    if events == [] then ("", "")
    else
      var (model, stop) := Ending(events[..|events| - 1]);
      match events[|events| - 1]
      case MessageStart(_, m, _) => (m, stop)
      case MessageDelta(s, _) => (model, s)
      case _ => (model, stop)
  }

  /** Counts in the words of a Responses client: cached tokens are input too. */
  function Reported(c: M.Counts): ResponsesUsage {
    var input := c.input + (if c.cacheRead.Some? then c.cacheRead.value else 0) +
                 (if c.cacheWrite.Some? then c.cacheWrite.value else 0);
    ResponsesUsage(input, c.output, input + c.output,
                   if c.cacheRead.Some? || c.cacheWrite.Some? then Some(InputDetails(c.cacheRead, c.cacheWrite))
                   else None, None)
  }

  // ---- the converter keeps them ----

  ghost predicate Keeps(s: State, events: seq<M.Event>) {
    && (forall i :: i in s.blocks <==> KindAt(events, i).Some?)
    && (forall i | i in s.blocks :: KindAt(events, i) == Some(s.blocks[i].kind))
    && (s.model, s.stopReason) == Ending(events)
    && M.Counts(s.prompt, s.completion, s.cacheRead, s.cacheWrite) == Chat.CountsOf(events)
  }

  lemma SaysMore(events: seq<M.Event>, ev: M.Event)
    ensures forall i :: KindAt(events + [ev], i) ==
              if ev.BlockStart? && ev.index == i then Some(ev.kind) else KindAt(events, i)
    ensures Ending(events + [ev]) ==
            match ev
            case MessageStart(_, m, _) => (m, Ending(events).1)
            case MessageDelta(s, _) => (Ending(events).0, s)
            case _ => Ending(events)
  {
    assert (events + [ev])[..|events|] == events;
  }

  lemma EventKeeps(names: ToolNames, s: State, events: seq<M.Event>, ev: M.Event)
    requires Keeps(s, events)
    ensures Keeps(OnEvent(names, s, ev).state, events + [ev])
  {
    hide KindAt, Ending, Chat.CountsOf, CallAdded, ToolDelta, OutputOf, TerminalOf;
    SaysMore(events, ev);
    Chat.CountsSnoc(events, ev);
  }

  lemma {:induction false} RunKeeps(names: ToolNames, events: seq<M.Event>)
    ensures Keeps(Pieces.Run(names, Initial(), events).0, events)
    decreases |events|
  {
    hide OnEvent, Keeps;
    if events == [] {
      NothingIsKept();
    } else {
      var init, ev := events[..|events| - 1], events[|events| - 1];
      RunKeeps(names, init);
      EventKeeps(names, Pieces.Run(names, Initial(), init).0, init, ev);
      assert init + [ev] == events;
    }
  }

  lemma NothingIsKept()
    ensures Keeps(Initial(), [])
  {
  }

  // ---- what each event does ----

  /** Why an event makes the stream fail: an error of the upstream, or arguments for what
      is no tool block. */
  function Failing(events: seq<M.Event>, ev: M.Event): Option<Failure> {
    match ev
    case Failed(failure) => Some(failure)
    case JsonFragment(index, _) =>
      if KindAt(events, index) == Some("tool_use") then None
      else Some(Failure("tool arguments fragment without a tool_use block start"))
    case _ => None
  }

  lemma TerminalMarks(names: ToolNames, s: State)
    ensures var events := TerminalOf(names, s);
            && Beginnings(events) == [] && events != [] && events[|events| - 1].Completed?
            && events[|events| - 1].id == s.msgId
            && Ends(events) == [(s.model, if s.stopReason == "max_tokens" then "incomplete" else "completed",
                                 Reported(M.Counts(s.prompt, s.completion, s.cacheRead, s.cacheWrite)))]
  {
    hide Completions, OutputOf, Beginnings, Ends, Between;
    var output := OutputOf(names, s);
    var end := Completed(s.msgId, s.model, ResponseStatusFromClaudeStop(s.stopReason), UsageOf(s), output);
    CompletionsAreBetween(output);
    BetweenMarksNothing(Completions(output));
    MarksAppend(Completions(output), [end]);
    MarksOfOne(end);
    assert [] + Ends([end]) == Ends([end]);
  }

  lemma EventMarks(names: ToolNames, s: State, ev: M.Event)
    requires !ev.MessageStop?
    ensures var o := OnEvent(names, s, ev);
            && !o.done && Ends(o.events) == []
            && Beginnings(o.events) == match ev case MessageStart(id, _, _) => [id] case _ => []
  {
    hide Beginnings, Ends;
    var o := OnEvent(names, s, ev);
    Nothing();
    if o.events != [] {
      assert |o.events| == 1 by { hide Concat; }
      assert o.events == [o.events[0]];
      MarksOfOne(o.events[0]);
    }
  }

  /** After any events: one more fails for the reasons named, and for nothing else; it ends
      the stream if and only if it is message_stop, and then with one response.completed
      that has the model, the status and the counts reported by then; and it begins one
      if and only if it is message_start. */
  lemma EventSays(names: ToolNames, events: seq<M.Event>, ev: M.Event)
    ensures var s := Pieces.Run(names, Initial(), events).0;
            var o, (model, stop) := OnEvent(names, s, ev), Ending(events);
            && o.err == Failing(events, ev) && (o.done <==> ev.MessageStop?)
            && Beginnings(o.events) == (match ev case MessageStart(id, _, _) => [id] case _ => [])
            && Ends(o.events) ==
                 if !ev.MessageStop? then []
                 else [(model, if stop == "max_tokens" then "incomplete" else "completed",
                        Reported(Chat.CountsOf(events)))]
  {
    hide Beginnings, Ends, Pieces.Run, TerminalOf, KindAt, Ending, Chat.CountsOf, ToolDelta, CallAdded, Reported;
    RunKeeps(names, events);
    var s := Pieces.Run(names, Initial(), events).0;
    if ev.MessageStop? { TerminalMarks(names, s); } else { EventMarks(names, s, ev); }
  }
}
