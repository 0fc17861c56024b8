/** On the Messages target of Responses upstreams: which streams send every delta for
    the block that is open. */
module ResponsesClaudeDeltas {
  import opened Basics
  import opened Wire
  import opened ToolTracking
  import opened ResponsesEvents
  import opened ResponsesCalls
  import opened ClaudeClient
  import opened ResponsesToClaude
  import opened ResponsesClaudeMeaning

  // ---- read off the upstream alone ----

  /** The call whose first event nothing has come after: neither text nor the first
      event of another call. */
  function Uninterrupted(events: seq<UpEvent>): Option<string> {
    if events == [] then None
    else
      var init, last := events[..|events| - 1], events[|events| - 1];
      if last.OutputText? then None
      else match Touched(last)
        case None => Uninterrupted(init)
        case Some(id) => if id in Seen(init) then Uninterrupted(init) else Some(id)
  }

  /** The event sends arguments for an earlier call that something has come after. */
  predicate Resumption(events: seq<UpEvent>, ev: UpEvent) {
    match Touched(ev)
    case None => false
    case Some(id) =>
      && id in Seen(events) && Uninterrupted(events) != Some(id)
      && (ev.ArgsFragment? || (Completes(ev) && !Delivered(events, id)))
  }

  predicate Resumes(events: seq<UpEvent>) {
    exists k | 0 <= k < |events| :: Resumption(events[..k], events[k])
  }

  lemma UninterruptedSnoc(events: seq<UpEvent>, ev: UpEvent)
    ensures Uninterrupted(events + [ev]) ==
            if ev.OutputText? then None
            else match Touched(ev)
              case None => Uninterrupted(events)
              case Some(id) => if id in Seen(events) then Uninterrupted(events) else Some(id)
  {
    assert (events + [ev])[..|events|] == events;
  }

  lemma ResumesSnoc(events: seq<UpEvent>, ev: UpEvent)
    ensures Resumes(events + [ev]) <==> Resumes(events) || Resumption(events, ev)
  {
    hide Resumption;
    var all := events + [ev];
    assert all[..|events|] == events && all[|events|] == ev;
    forall k | 0 <= k < |events| ensures all[..k] == events[..k] && all[k] == events[k] {
    }
    if Resumes(events) {
      var k :| 0 <= k < |events| && Resumption(events[..k], events[k]);
      assert Resumption(all[..k], all[k]);
    }
    if Resumption(events, ev) { assert Resumption(all[..|events|], all[|events|]); }
    if Resumes(all) {
      var k :| 0 <= k < |all| && Resumption(all[..k], all[k]);
      if k < |events| { assert Resumption(events[..k], events[k]); }
    }
  }

  // ---- the open block ----

  /** The block of a call is open exactly while nothing has come after its start. */
  ghost predicate OpenIs(s: State, slots: map<string, nat>, events: seq<UpEvent>) {
    && (forall id | id in slots :: s.open == Some(slots[id]) <==> Uninterrupted(events) == Some(id))
    && (Uninterrupted(events).Some? ==> Uninterrupted(events).value in slots)
  }

  lemma SlotsAreTools(ids: map<string, string>, s: State, c: Client, events: seq<UpEvent>, slots: map<string, nat>)
    requires Follows(ids, s, c, events, slots)
    ensures forall id | id in slots :: slots[id] < s.next && slots[id] < |c.blocks| && c.blocks[slots[id]].ToolBlock?
    ensures forall i, j | i in slots && j in slots && slots[i] == slots[j] :: i == j
    ensures forall id :: id in slots <==> id in Seen(events)
  {
    hide Seen, Calls, ToolsOf, Placed, Spoken, TextOf, Delivered;
  }

  lemma TextOpens(ids: map<string, string>, s: State, c: Client, events: seq<UpEvent>, slots: map<string, nat>,
                  delta: string)
    requires Follows(ids, s, c, events, slots) && OpenIs(s, slots, events)
    ensures OpenIs(OnText(s, delta).0, slots, events + [OutputText(delta)])
    ensures Read(true, c, OnText(s, delta).1) == Read(false, c, OnText(s, delta).1)
  {
    hide Follows, Seen, Read, Uninterrupted;
    FollowsAgrees(ids, s, c, events, slots);
    AgreesSize(s, c, events);
    SlotsAreTools(ids, s, c, events, slots);
    UninterruptedSnoc(events, OutputText(delta));
    if s.textOpen {
      ReadNothing(c);
      StrictReadThen(c, [], BlockText(s.textIndex, delta));
      assert [] + [BlockText(s.textIndex, delta)] == [BlockText(s.textIndex, delta)];
    } else {
      ClosingAccepted(s, c);
      ReadThen(false, c, Closing(s), TextStart(s.next));
      StrictReadThen(c, Closing(s) + [TextStart(s.next)], BlockText(s.next, delta));
    }
  }

  lemma FollowsAgrees(ids: map<string, string>, s: State, c: Client, events: seq<UpEvent>, slots: map<string, nat>)
    requires Follows(ids, s, c, events, slots)
    ensures Agrees(s, c, events) && Tracks(ids, events, s.table, slots, s.next)
  {
  }

  /** What the converter sends for a call, as a strict client reads it. */
  lemma CallStrict(s: State, c: Client, ev: UpEvent, seen: Sighting)
    requires Touched(ev).Some? && seen == SightingOf(s.table, s.next, ev) && (seen.first ==> seen.index == s.next)
    requires c.open == s.open && !c.ended && |c.blocks| == s.next && c.head.Some?
             && (s.open.Some? ==> s.open.value < s.next)
    ensures var more := CallEvents(s, ev).1;
            Read(true, c, more) ==
            if (ev.ArgsFragment? || seen.deliver) && !seen.first && c.open != Some(seen.index) then None
            else Read(false, c, more)
  {
    hide Read, SightingOf, CallEvents, Blank, Said, Touched;
    CallEventsAre(s, ev);
    var s0 := if ev.OutputItem? then s.(toolsSeen := true) else s;
    var e1 := OpenCall(s0, seen, Blank(ev).id, Blank(ev).name).1;
    OpenAgrees(s0, c, seen, ev);
    if ev.ArgsFragment? || seen.deliver {
      StrictReadThen(c, e1, BlockJson(seen.index, Said(seen, ev)));
    } else {
      StrictRead(c, e1);
      assert e1 + [] == e1;
    }
  }

  lemma {:induction false} CallOpens(ids: map<string, string>, s: State, c: Client, events: seq<UpEvent>,
                                     slots: map<string, nat>, ev: UpEvent)
    requires Follows(ids, s, c, events, slots) && OpenIs(s, slots, events) && Distinct(ids) && Keyed(ids, ev)
             && Touched(ev).Some?
    ensures var (s', more) := CallEvents(s, ev);
            && OpenIs(s', SlotsAfter(slots, s.next, ev), events + [ev])
            && Read(true, c, more) == if Resumption(events, ev) then None else Read(false, c, more)
  {
    hide Follows, Seen, Read, Uninterrupted, Tracks, Distinct, Keyed, SightingOf, CallEvents, Delivered, Agrees;
    var id, seen := Touched(ev).value, SightingOf(s.table, s.next, ev);
    FollowsAgrees(ids, s, c, events, slots);
    AgreesSize(s, c, events);
    SlotsAreTools(ids, s, c, events, slots);
    TracksEvent(ids, events, s.table, slots, s.next, ev);
    AnswerKeys(s.table, s.next, ev);
    CallStrict(s, c, ev, seen);
    CallEventsAre(s, ev);
    UninterruptedSnoc(events, ev);
  }

  /** One event: a strict client refuses exactly the resumptions. */
  lemma EventStrict(ids: map<string, string>, s: State, c: Client, events: seq<UpEvent>, slots: map<string, nat>,
                    ev: UpEvent)
    requires Follows(ids, s, c, events, slots) && OpenIs(s, slots, events)
    requires Distinct(ids) && Keyed(ids, ev) && Ongoing(ev)
    ensures var step := OnEvent(s, ev);
            var more := Unheaded(step.events);
            && OpenIs(step.state, SlotsAfter(slots, s.next, ev), events + [ev])
            && Read(true, c, more) == if Resumption(events, ev) then None else Read(false, c, more)
  {
    hide Follows, Read, Distinct, Keyed, Unheaded, OnText, OnItem, OnFragment, Uninterrupted, Seen;
    HeadsOfStep(s, ev);
    if Touched(ev).Some? {
      CallOpens(ids, s, c, events, slots, ev);
    } else if ev.OutputText? {
      TextOpens(ids, s, c, events, slots, ev.delta);
    } else {
      SilentEvent(s, ev);
      UninterruptedSnoc(events, ev);
      StrictRead(c, []);
    }
  }

  ghost predicate Strictly(ids: map<string, string>, s: State, sent: seq<ClaudeEvent>, events: seq<UpEvent>,
                           slots: map<string, nat>) {
    && BodyFollowed(ids, s, sent, events, slots) && OpenIs(s, slots, events)
    && Read(true, STARTED, Unheaded(sent)) == if Resumes(events) then None else Read(false, STARTED, Unheaded(sent))
  }

  lemma {:induction false} RunStrict(ids: map<string, string>, events: seq<UpEvent>) returns (slots: map<string, nat>)
    requires Distinct(ids) && forall k | 0 <= k < |events| :: Ongoing(events[k]) && Keyed(ids, events[k])
    ensures Strictly(ids, Run(events).0, Run(events).1, events, slots)
    decreases |events|
  {
    hide Follows, OnEvent, Read, Unheaded, OpenIs, Resumes, Resumption;
    if events == [] {
      slots := BodyIsFollowed(ids, []);
      NothingStrict(ids, slots);
    } else {
      var init, ev := events[..|events| - 1], events[|events| - 1];
      var before := RunStrict(ids, init);
      var (s, sent) := Run(init);
      var c := Read(false, STARTED, Unheaded(sent)).value;
      var more := Unheaded(OnEvent(s, ev).events);
      slots := SlotsAfter(before, s.next, ev);
      EventFollows(ids, s, c, init, before, ev);
      EventStrict(ids, s, c, init, before, ev);
      UnheadedAppend(sent, OnEvent(s, ev).events);
      ReadAppend(false, STARTED, Unheaded(sent), more);
      ReadAppend(true, STARTED, Unheaded(sent), more);
      ResumesSnoc(init, ev);
      assert init + [ev] == events;
    }
  }

  lemma NothingStrict(ids: map<string, string>, slots: map<string, nat>)
    requires BodyFollowed(ids, Run([]).0, Run([]).1, [], slots)
    ensures Strictly(ids, Run([]).0, Run([]).1, [], slots)
  {
    hide Read;
    StrictRead(STARTED, []);
    assert forall id :: id !in Seen([]);
  }

  /** When every call has its own pair of names: every delta names the open block if
      and only if the upstream sends no arguments for a call after text or another
      call began, a complete copy that is due included.  The whole stream is then
      accepted if response.created came first and once. */
  lemma {:induction false} DeltasNameTheOpenBlockIff(ids: map<string, string>, events: seq<UpEvent>)
    requires Distinct(ids) && forall k | 0 <= k < |events| :: Ongoing(events[k]) && Keyed(ids, events[k])
    ensures var sent := Run(events).1;
            && (Read(true, STARTED, Unheaded(sent)).Some? <==> !Resumes(events))
            && (Read(true, NEW_CLIENT, sent).Some? <==> CreatedFirst(events) && !Resumes(events))
  {
    hide Read, Run, Unheaded, Resumes, CreatedFirst, Enveloped, HeadOf, Quiet, Follows;
    var slots := RunStrict(ids, events);
    EnvelopeAndBlocks(true, Run(events).1);
    EnvelopeIff(events);
  }
}
