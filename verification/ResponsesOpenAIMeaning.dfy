/** What a Chat Completions client reads off a converted Responses stream. */
module ResponsesOpenAIMeaning {
  import opened Basics
  import opened Wire
  import opened LineFeed
  import opened FrameFeed
  import Framing
  import opened ToolTracking
  import opened ResponsesEvents
  import opened ResponsesCalls
  import opened ChatClient
  import opened ResponsesToOpenAI
  import B = ClaudeClient
  import R = ResponsesClaudeMeaning

  /** The client's calls, numbered in order of first appearance. */
  ghost predicate Numbered(calls: map<int, ChatCall>, told: seq<B.Block>) {
    && (forall i :: i in calls <==> 0 <= i < |told|)
    && (forall i | 0 <= i < |told| ::
        told[i].ToolBlock? && calls[i] == ChatCall(told[i].id, told[i].name, told[i].json))
  }

  /** A call's index is its number. */
  ghost predicate InOrder(slots: map<string, nat>, seen: seq<string>) {
    forall k | 0 <= k < |seen| :: seen[k] in slots && slots[seen[k]] == k
  }

  ghost predicate Follows(ids: map<string, string>, s: State, r: Reply, body: seq<UpEvent>, slots: map<string, nat>) {
    && r.role && r.text == Spoken(body) && r.finish == None
    && s.next == |Seen(body)| && Tracks(ids, body, s.table, slots, s.next) && InOrder(slots, Seen(body))
    && Numbered(r.calls, Calls(body)) && (s.toolsSeen <==> Seen(body) != [])
  }

  /** What the converter does with an event of a call, in the tracker's terms. */
  lemma CallEntryIs(s: State, ev: UpEvent)
    requires Touched(ev).Some?
    ensures var seen, b := SightingOf(s.table, s.next, ev), Blank(ev);
            OnEvent(s, ev) ==
            Step(s.(table := seen.table, next := if seen.first then s.next + 1 else s.next, toolsSeen := true),
                 if seen.first then [OpeningEntry(seen.index, b.id, b.name, Said(seen, ev))]
                 else if ev.ArgsFragment? || seen.deliver then [ArgumentsEntry(seen.index, Said(seen, ev))] else [],
                 false, None)
  {
    hide Resolve;
  }

  lemma {:induction false} CallFollows(ids: map<string, string>, s: State, r: Reply, body: seq<UpEvent>,
                                       slots: map<string, nat>, ev: UpEvent)
    requires Follows(ids, s, r, body, slots) && Distinct(ids) && Keyed(ids, ev) && Touched(ev).Some?
    ensures var step := OnEvent(s, ev);
            var r' := Read(r, step.events);
            r'.Some? && Follows(ids, step.state, r'.value, body + [ev], SlotsAfter(slots, s.next, ev))
  {
    hide Seen, Delivered, Calls, SightingOf, Completes, Sent, Said, Tracks, Keyed, Distinct, OnEvent, Spoken, Read,
         Numbered, InOrder;
    var id, seen := Touched(ev).value, SightingOf(s.table, s.next, ev);
    CallEntryIs(s, ev);
    TracksSeen(ids, body, s.table, slots, s.next);
    TracksEvent(ids, body, s.table, slots, s.next, ev);
    AnswerSays(s.table, s.next, body, ev, seen);
    SpokenSnoc(body, ev);
    assert Spoken(body) + "" == Spoken(body);
    if seen.first {
      NewCallRead(r, body, slots, ev, Sent(body, ev));
    } else {
      KnownCallRead(r, body, slots, ev, Sent(body, ev), ev.ArgsFragment? || seen.deliver);
    }
  }

  lemma {:induction false} NewCallRead(r: Reply, body: seq<UpEvent>, slots: map<string, nat>, ev: UpEvent, said: string)
    requires r.role && Numbered(r.calls, Calls(body)) && InOrder(slots, Seen(body))
    requires Touched(ev).Some? && Touched(ev).value !in Seen(body) && said == Sent(body, ev)
             && Touched(ev).value !in slots
    ensures var n, b := |Seen(body)|, Blank(ev);
            var r' := Read(r, [OpeningEntry(n, b.id, b.name, said)]);
            && r'.Some? && r'.value == r.(calls := r'.value.calls)
            && Numbered(r'.value.calls, Calls(body + [ev])) && InOrder(slots[Touched(ev).value := n], Seen(body + [ev]))
            && |Seen(body + [ev])| == n + 1
  {
    hide Seen, Calls, Sent, Read, Numbered, InOrder;
    var n, b := |Seen(body)|, Blank(ev);
    EventsSnoc(body, ev);
    CallsSnoc(body, ev);
    SlotsInOrder(slots, Seen(body), n, Touched(ev).value);
    ReadOne(r, OpeningEntry(n, b.id, b.name, said));
    NumberedNew(r.calls, Calls(body), B.ToolBlock(b.id, b.name, said));
  }

  lemma {:induction false} KnownCallRead(r: Reply, body: seq<UpEvent>, slots: map<string, nat>, ev: UpEvent,
                                         said: string, sends: bool)
    requires r.role && Numbered(r.calls, Calls(body)) && InOrder(slots, Seen(body))
    requires Touched(ev).Some? && Touched(ev).value in Seen(body) && Touched(ev).value in slots
             && said == Sent(body, ev)
    requires sends <==> ev.ArgsFragment? || (Completes(ev) && !Delivered(body, Touched(ev).value))
    ensures var i := slots[Touched(ev).value];
            var r' := Read(r, if sends then [ArgumentsEntry(i, said)] else []);
            && r'.Some? && r'.value == r.(calls := r'.value.calls)
            && Numbered(r'.value.calls, Calls(body + [ev])) && Seen(body + [ev]) == Seen(body) && Seen(body) != []
  {
    hide Seen, Calls, Sent, Read, Numbered, Grown, Completes, Delivered;
    var id := Touched(ev).value;
    EventsSnoc(body, ev);
    CallsSnoc(body, ev);
    var k :| 0 <= k < |Seen(body)| && Seen(body)[k] == id;
    assert slots[Seen(body)[k]] == k;
    NumberedMore(r.calls, Calls(body), k, said);
    if sends {
      ReadOne(r, ArgumentsEntry(k, said));
    } else {
      SilentCall(body, ev);
      ReadNothing(r);
      NothingSent(r.calls, k);
    }
  }

  lemma SilentCall(body: seq<UpEvent>, ev: UpEvent)
    requires Touched(ev).Some? && !ev.ArgsFragment? && !(Completes(ev) && !Delivered(body, Touched(ev).value))
    ensures Sent(body, ev) == ""
  {
  }

  lemma ReadNothing(r: Reply)
    ensures Read(r, []) == Some(r)
  {
  }

  lemma NothingSent(calls: map<int, ChatCall>, k: int)
    requires k in calls
    ensures calls[k := calls[k].(arguments := calls[k].arguments + "")] == calls
  {
    assert calls[k].arguments + "" == calls[k].arguments;
  }

  lemma SlotsInOrder(slots: map<string, nat>, seen: seq<string>, next: nat, id: string)
    requires InOrder(slots, seen) && next == |seen|
    ensures id !in slots && id !in seen ==> InOrder(slots[id := next], seen + [id])
  {
  }

  lemma NumberedNew(calls: map<int, ChatCall>, told: seq<B.Block>, b: B.Block)
    requires Numbered(calls, told) && b.ToolBlock?
    ensures |told| !in calls && Numbered(calls[|told| := ChatCall(b.id, b.name, b.json)], told + [b])
  {
  }

  lemma NumberedMore(calls: map<int, ChatCall>, told: seq<B.Block>, k: nat, more: string)
    requires Numbered(calls, told) && k < |told|
    ensures k in calls
            && Numbered(calls[k := calls[k].(arguments := calls[k].arguments + more)], told[k := Grown(told[k], more)])
  {
  }

  lemma {:induction false} EventFollows(ids: map<string, string>, s: State, r: Reply, body: seq<UpEvent>,
                                        slots: map<string, nat>, ev: UpEvent)
    requires Follows(ids, s, r, body, slots) && Distinct(ids) && Keyed(ids, ev) && R.Ongoing(ev)
    ensures var step := OnEvent(s, ev);
            var r' := Read(r, Unroled(step.events));
            r'.Some? && Follows(ids, step.state, r'.value, body + [ev], SlotsAfter(slots, s.next, ev))
  {
    UnroledStep(s, ev);
    if Touched(ev).Some? {
      hide Unroled, Read, OnEvent;
      CallFollows(ids, s, r, body, slots, ev);
    } else {
      hide Unroled, Seen, Calls, Tracks, Distinct, Keyed, Spoken, Read, Numbered, InOrder;
      EventsSnoc(body, ev);
      CallsSnoc(body, ev);
      SpokenSnoc(body, ev);
      TracksOther(ids, body, s.table, slots, s.next, s.next, ev);
      if ev.OutputText? {
        ReadOne(r, ContentChunk(ev.delta));
      } else {
        ReadNothing(r);
        assert Spoken(body) + "" == Spoken(body);
      }
    }
  }

  /** Only response.created sends the role. */
  lemma UnroledStep(s: State, ev: UpEvent)
    ensures Unroled(OnEvent(s, ev).events) == if ev.Created? then [] else OnEvent(s, ev).events
  {
    var events := OnEvent(s, ev).events;
    if events != [] {
      assert events == [events[0]];
      UnroledOne(events[0]);
    }
  }

  // ---- whole streams ----

  function Run(events: seq<UpEvent>): (State, seq<ChatEvent>) {
    if events == [] then (Initial(), [])
    else
      var (s1, e1) := Run(events[..|events| - 1]);
      var step := OnEvent(s1, events[|events| - 1]);
      (step.state, e1 + step.events)
  }

  lemma RunSnoc(events: seq<UpEvent>, ev: UpEvent)
    ensures var (s, e) := Run(events);
            Run(events + [ev]) == (OnEvent(s, ev).state, e + OnEvent(s, ev).events)
  {
    assert (events + [ev])[..|events|] == events;
  }

  ghost predicate BodyFollowed(ids: map<string, string>, s: State, sent: seq<ChatEvent>, events: seq<UpEvent>,
                               slots: map<string, nat>) {
    var r := Read(OPENED, Unroled(sent));
    r.Some? && Follows(ids, s, r.value, events, slots)
  }

  lemma {:induction false} BodyIsFollowed(ids: map<string, string>, events: seq<UpEvent>)
    returns (slots: map<string, nat>)
    requires Distinct(ids) && forall k | 0 <= k < |events| :: R.Ongoing(events[k]) && Keyed(ids, events[k])
    ensures BodyFollowed(ids, Run(events).0, Run(events).1, events, slots)
    decreases |events|
  {
    hide OnEvent, Read, Follows, Unroled;
    if events == [] {
      slots := map[];
      StartIsFollowed(ids);
    } else {
      var init, ev := events[..|events| - 1], events[|events| - 1];
      var before := BodyIsFollowed(ids, init);
      var (s, sent) := Run(init);
      slots := SlotsAfter(before, s.next, ev);
      EventFollows(ids, s, Read(OPENED, Unroled(sent)).value, init, before, ev);
      UnroledAppend(sent, OnEvent(s, ev).events);
      ReadAppend(OPENED, Unroled(sent), Unroled(OnEvent(s, ev).events));
      assert init + [ev] == events;
    }
  }

  lemma StartIsFollowed(ids: map<string, string>)
    ensures BodyFollowed(ids, Initial(), [], [], map[])
  {
  }

  // ---- the role ----

  /** response.created comes once, and before all text and calls. */
  predicate CreatedFirst(events: seq<UpEvent>) {
    forall k | 0 <= k < |events| && (events[k].Created? || HasContent(events[k])) ::
      events[k].Created? <==> !HasCreated(events[..k])
  }

  predicate HasContent(ev: UpEvent) {
    ev.OutputText? || Touched(ev).Some?
  }

  predicate HasCreated(events: seq<UpEvent>) {
    exists k | 0 <= k < |events| :: events[k].Created?
  }

  lemma CreatedSnoc(events: seq<UpEvent>, ev: UpEvent)
    ensures HasCreated(events + [ev]) <==> HasCreated(events) || ev.Created?
    ensures CreatedFirst(events + [ev]) <==>
            CreatedFirst(events) && (ev.Created? || HasContent(ev) ==> (ev.Created? <==> !HasCreated(events)))
  {
    hide HasContent;
    var all := events + [ev];
    assert all[..|events|] == events && all[|events|] == ev;
    forall k | 0 <= k < |events| ensures all[..k] == events[..k] && all[k] == events[k] {
    }
  }

  /** What an event sends: at most one chunk; for a call the tracker does not know
      always one. */
  lemma StepSends(s: State, ev: UpEvent)
    ensures var sent := OnEvent(s, ev).events;
            && |sent| <= 1
            && (sent != [] ==> (sent[0].RoleChunk? <==> ev.Created?) && (sent[0].FinishChunk? <==> ev.Terminal?))
            && (ev.Created? || ev.OutputText? || ev.Terminal? ==> sent != [])
            && (sent != [] && !ev.Created? && !ev.Terminal? ==> HasContent(ev))
            && (Touched(ev).Some? && s.table.keys == map[] ==> sent != [])
            && (Touched(ev).None? ==> OnEvent(s, ev).state.table == s.table)
  {
    hide Resolve;
    if Touched(ev).Some? {
      CallEntryIs(s, ev);
      if s.table.keys == map[] { FirstIsNew(s.table, s.next, ev); }
    }
  }

  lemma FirstIsNew(t: Table, next: nat, ev: UpEvent)
    requires Touched(ev).Some? && t.keys == map[]
    ensures SightingOf(t, next, ev).first
  {
    match ev
    case OutputItem(item) => assert item.callId !in t.keys && item.id !in t.keys;
    case ArgsFragment(itemId, _) => assert itemId !in t.keys;
    case _ =>
  }

  /** The role comes first and once exactly when response.created does. */
  lemma {:induction false} RoleIff(events: seq<UpEvent>)
    ensures var (s, sent) := Run(events);
            && (RoleFirst(sent) <==> CreatedFirst(events)) && (HasRole(sent) <==> HasCreated(events))
            && (s.table.keys != map[] && !HasCreated(events) ==> !CreatedFirst(events))
    decreases |events|
  {
    if events != [] {
      hide OnEvent, CreatedFirst, HasCreated, HasContent, RoleFirst, HasRole;
      var init, ev := events[..|events| - 1], events[|events| - 1];
      RoleIff(init);
      var (s, sent) := Run(init);
      var more := OnEvent(s, ev).events;
      assert init + [ev] == events;
      CreatedSnoc(init, ev);
      StepSends(s, ev);
      ContentMeans(ev);
      if more == [] {
        assert sent + more == sent;
      } else {
        assert more == [more[0]];
        RoleSnoc(sent, more[0]);
      }
    }
  }

  lemma ContentMeans(ev: UpEvent)
    ensures HasContent(ev) <==> ev.OutputText? || Touched(ev).Some?
  {
  }

  // ---- the theorems ----

  /** A stream up to its first terminal event, in which each call has its own pair of
      names, whatever came before: the client reads the text, the calls in order of
      first appearance, each under its own index with the identity of its first event
      and the arguments sent for it, and a tool-aware finish reason.  The whole stream
      is accepted, role included, if and only if response.created came once and before
      all text and calls. */
  lemma {:induction false} ReplyIsRead(ids: map<string, string>, events: seq<UpEvent>,
                                       incomplete: bool, input: int, output: int, d: UsageDetails)
    requires Distinct(ids) && forall k | 0 <= k < |events| :: R.Ongoing(events[k]) && Keyed(ids, events[k])
    ensures var sent := Run(events + [Terminal(incomplete, input, output, d)]).1;
            var o, r := Read(OPENED, Unroled(sent)), Read(NO_REPLY, sent);
            && o.Some? && o.value.text == Spoken(events) && Numbered(o.value.calls, Calls(events))
            && var reason := if Seen(events) != [] then "tool_calls" else if incomplete then "length" else "stop";
            && o.value.finish == Some((reason, ChatUsage(input, output, input + output, d.cached, d.reasoning)))
            && (r.Some? <==> CreatedFirst(events)) && (r.Some? ==> r.value == o.value.(role := HasCreated(events)))
  {
    hide Read, Run, Distinct, Keyed, OnEvent, Follows, Ending, Numbered, Calls, Seen, Spoken, TerminalReason,
         Unroled, RoleFirst, HasRole, CreatedFirst, HasCreated;
    var terminal := Terminal(incomplete, input, output, d);
    var slots := BodyIsFollowed(ids, events);
    var (s, sent) := Run(events);
    RunSnoc(events, terminal);
    TerminalEvent(s, incomplete, input, output, d);
    EndIsRead(ids, s, sent, events, slots, incomplete, input, output, d);
    var end := Ending(s, incomplete, input, output, d);
    RoleAndContent(sent + [end]);
    RoleIff(events);
    RoleSnoc(sent, end);
    EndingIs(s, incomplete, input, output, d);
  }

  lemma EndingIs(s: State, incomplete: bool, input: int, output: int, d: UsageDetails)
    ensures Ending(s, incomplete, input, output, d).FinishChunk?
  {
  }

  lemma EndIsRead(ids: map<string, string>, s: State, sent: seq<ChatEvent>, events: seq<UpEvent>,
                  slots: map<string, nat>, incomplete: bool, input: int, output: int, d: UsageDetails)
    requires BodyFollowed(ids, s, sent, events, slots)
    ensures var o := Read(OPENED, Unroled(sent + [Ending(s, incomplete, input, output, d)]));
            && o.Some? && o.value.text == Spoken(events) && Numbered(o.value.calls, Calls(events))
            && var reason := if Seen(events) != [] then "tool_calls" else if incomplete then "length" else "stop";
            && o.value.finish == Some((reason, ChatUsage(input, output, input + output, d.cached, d.reasoning)))
  {
    hide Read, Tracks, Numbered, Calls, Seen, Spoken, InOrder, Unroled;
    var e := Ending(s, incomplete, input, output, d);
    UnroledAppend(sent, [e]);
    UnroledOne(e);
    ReadAppend(OPENED, Unroled(sent), [e]);
    ReadOne(Read(OPENED, Unroled(sent)).value, e);
  }

  lemma TerminalEvent(s: State, incomplete: bool, input: int, output: int, d: UsageDetails)
    ensures OnEvent(s, Terminal(incomplete, input, output, d)).events == [Ending(s, incomplete, input, output, d)]
  {
  }

  /** Both targets tell their clients the same calls, text and order. */
  lemma TargetsAgree(ids: map<string, string>, events: seq<UpEvent>, incomplete: bool, input: int, output: int,
                     d: UsageDetails)
    requires Distinct(ids) && forall k | 0 <= k < |events| :: R.Ongoing(events[k]) && Keyed(ids, events[k])
    ensures var all := events + [Terminal(incomplete, input, output, d)];
            var r, c := Read(OPENED, Unroled(Run(all).1)), B.Read(false, B.STARTED, B.Unheaded(R.Run(all).1));
            && r.Some? && c.Some? && r.value.text == B.TextOf(c.value.blocks)
            && Numbered(r.value.calls, B.ToolsOf(c.value.blocks))
  {
    hide Read, B.Read, Run, R.Run, Numbered, B.TextOf, B.ToolsOf, Calls, Spoken, Keyed, Distinct, Seen, B.Unheaded,
         Unroled, R.CreatedFirst, CreatedFirst, R.HeadOf, TerminalReason;
    ReplyIsRead(ids, events, incomplete, input, output, d);
    R.EveryStreamIsAccepted(events, incomplete, input, output, d);
    R.CallsAreRead(ids, events, incomplete, input, output, d);
  }

  /** The network's cutting can show: text behind the terminal event is converted if
      it came in the same chunk, and is not read if it came in the next. */
  lemma {:induction false} TextBehindTheTerminal(decode: Decoder, s: State, end: Framing.Printed,
                                                 late: Framing.Printed, delta: string)
    requires Framing.OneLine(end) && Framing.OneLine(late)
    requires decode(FrameOf(end)).Ok? && decode(FrameOf(end)).value.Terminal?
             && decode(FrameOf(late)) == Ok(OutputText(delta))
    ensures var h, r := Lines(false, Frames(decode)), Reader(Framing.EMPTY, s);
            var a, b := Framing.SSEEvent(end), Framing.SSEEvent(late);
            var apart := FeedAll(h, false, r, "", [a, b]).events;
            && |apart| == 1 && apart[0].FinishChunk?
            && FeedAll(h, false, r, "", [a + b]).events == apart + [ContentChunk(delta)]
  {
    hide FeedAll, Framing.SSEEvent, TrimSpace, TrimCR;
    var d := Frames(decode);
    var last := d(s, FrameOf(end));
    assert last == OnFrame(decode, s, FrameOf(end));
    assert d(last.state, FrameOf(late)) == OnFrame(decode, last.state, FrameOf(late));
    LateFrameShows(d, s, end, late);
  }

  // ---- the identity ----

  /** The identity by now: the last id and model that were not empty. */
  function Identity(events: seq<UpEvent>): (string, string) {
    if events == [] then ("opencode-go", "")
    else
      var (id, model) := Identity(events[..|events| - 1]);
      match events[|events| - 1]
      case Created(i, m) => (if i == "" then id else i, if m == "" then model else m)
      case _ => (id, model)
  }

  /** Each response.created gives the role with the identity by then. */
  function Named(events: seq<UpEvent>): seq<(string, string)> {
    if events == [] then []
    else Named(events[..|events| - 1]) + if events[|events| - 1].Created? then [Identity(events)] else []
  }

  lemma StepNames(s: State, ev: UpEvent)
    ensures var step := OnEvent(s, ev);
            match ev
            case Created(i, m) =>
              && step.state.id == (if i == "" then s.id else i) && step.state.model == (if m == "" then s.model else m)
              && Roles(step.events) == [(step.state.id, step.state.model)]
            case _ => step.state.id == s.id && step.state.model == s.model && Roles(step.events) == []
  {
    hide Observed, Streamed, Roles, TerminalReason;
    var step := OnEvent(s, ev);
    NoRoles();
    if step.events != [] {
      assert step.events == [step.events[0]];
      RolesOfOne(step.events[0]);
    }
  }

  lemma NoRoles()
    ensures Roles([]) == []
  {
  }

  lemma {:induction false} RolesAreNamed(events: seq<UpEvent>)
    ensures var (s, sent) := Run(events);
            (s.id, s.model) == Identity(events) && Roles(sent) == Named(events)
    decreases |events|
  {
    hide OnEvent;
    if events != [] {
      var n := |events| - 1;
      RolesAreNamed(events[..n]);
      var (s, sent) := Run(events[..n]);
      StepNames(s, events[n]);
      RolesAppend(sent, OnEvent(s, events[n]).events);
    }
  }
}
