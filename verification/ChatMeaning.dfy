/** What a Chat Completions stream means to the Responses synthesizer. */
module ChatMeaning {
  import opened Basics
  import opened ResponseTools
  import opened Wire
  import opened ChatChunks
  import opened ResponsesTurn
  import opened TurnPieces
  import opened ChatToResponses

  // ---- the pieces of a stream, read off the upstream chunks alone ----

  /** Upstream tool indexes in order of first appearance, and whether text has begun. */
  datatype Reading = Reading(seen: seq<int>, begun: bool)

  function ReadContent(r: Reading, content: string): (Reading, seq<Piece>) {
    if content == "" then (r, [])
    else (r.(begun := true), (if r.begun then [] else [BeginText]) + [Say(content)])
  }

  function ReadCall(r: Reading, tc: ToolCallDelta): (Reading, seq<Piece>) {
    var isNew := tc.index !in r.seen;
    (if isNew then r.(seen := r.seen + [tc.index]) else r,
     (if isNew then [Start(tc.id, tc.name)] else []) +
     (if tc.arguments == "" then [] else [Feed(NumberOf(r.seen, tc.index), tc.arguments)]))
  }

  function ReadCalls(r: Reading, calls: seq<ToolCallDelta>): (Reading, seq<Piece>) {
    if calls == [] then (r, [])
    else
      var (r1, p1) := ReadCalls(r, calls[..|calls| - 1]);
      var (r2, p2) := ReadCall(r1, calls[|calls| - 1]);
      (r2, p1 + p2)
  }

  function ReadChoice(r: Reading, choice: Choice): (Reading, seq<Piece>) {
    var (r1, p1) := ReadContent(r, choice.content);
    var (r2, p2) := ReadCalls(r1, choice.toolCalls);
    (r2, p1 + p2)
  }

  function ReadChunks(chunks: seq<Chunk>): (Reading, seq<Piece>) {
    if chunks == [] then (Reading([], false), [])
    else
      var (r1, p1) := ReadChunks(chunks[..|chunks| - 1]);
      var last := chunks[|chunks| - 1];
      if last.choices == [] then (r1, p1)
      else
        var (r2, p2) := ReadChoice(r1, last.choices[0]);
        (r2, p1 + p2)
  }

  function Pieces(chunks: seq<Chunk>): seq<Piece> {
    ReadChunks(chunks).1
  }

  // ---- the converter's state and the reading ----

  ghost predicate Reads(s: State, r: Reading) {
    && -1 <= s.turn.textPos <= |r.seen|
    && |s.turn.items| == |r.seen| + (if r.begun then 1 else 0)
    && (r.begun <==> s.turn.textPos >= 0)
    && (forall i, j | 0 <= i < j < |r.seen| :: r.seen[i] != r.seen[j])
    && (forall x :: x in s.slots <==> x in r.seen)
    && (forall k | 0 <= k < |r.seen| :: s.slots[r.seen[k]] == Place(s.turn.textPos, k))
  }

  lemma ContentStep(names: ToolNames, s: State, r: Reading, content: string)
    requires Reads(s, r)
    ensures var (s', events) := OnContent(names, s, content);
            var (r', pieces) := ReadContent(r, content);
            var (t, events') := Play(names, s.turn, pieces);
            Reads(s', r') && s' == s.(turn := t) && events == events' && t.id == s.turn.id
  {
    if content == "" {
    } else if r.begun {
      PlayOne(names, s.turn, Say(content));
      assert [] + [Say(content)] == [Say(content)];
      assert [] + [TextDelta(s.turn.id, s.turn.textPos, content)] == [TextDelta(s.turn.id, s.turn.textPos, content)];
    } else {
      PlayTwo(names, s.turn, BeginText, Say(content));
      assert [BeginText] + [Say(content)] == [BeginText, Say(content)];
      var (s', _) := OnContent(names, s, content);
      forall k | 0 <= k < |r.seen| ensures r.seen[k] in s.slots && s.slots[r.seen[k]] == Place(s'.turn.textPos, k) {
        assert r.seen[k] in r.seen;
        assert s.slots[r.seen[k]] == Place(-1, k);
      }
    }
  }

  lemma ReadsNewCall(s: State, r: Reading, s': State, index: int)
    requires Reads(s, r) && index !in r.seen
    requires s'.slots == s.slots[index := |s.turn.items|]
    requires |s'.turn.items| == |s.turn.items| + 1 && s'.turn.textPos == s.turn.textPos
    ensures Reads(s', r.(seen := r.seen + [index]))
    ensures s'.slots[index] == Place(s'.turn.textPos, NumberOf(r.seen, index))
  {
    var seen := r.seen + [index];
    assert forall x :: x in seen <==> x in r.seen || x == index;
    assert NumberOf(r.seen, index) == |r.seen|;
    hide NumberOf;
    forall k | 0 <= k < |seen| ensures seen[k] in s'.slots && s'.slots[seen[k]] == Place(s'.turn.textPos, k) {
      if k < |r.seen| {
        assert seen[k] == r.seen[k] && r.seen[k] in r.seen;
      }
    }
    forall i, j | 0 <= i < j < |seen| ensures seen[i] != seen[j] {
      if j == |r.seen| { assert seen[i] in r.seen; }
    }
  }

  lemma ReadsKnownCall(s: State, r: Reading, index: int)
    requires Reads(s, r) && index in r.seen
    ensures index in s.slots && s.slots[index] == Place(s.turn.textPos, NumberOf(r.seen, index))
  {
    var k :| 0 <= k < |r.seen| && r.seen[k] == index;
    NumberIs(r.seen, k);
  }

  lemma OpenStep(names: ToolNames, s: State, r: Reading, tc: ToolCallDelta)
    requires Reads(s, r)
    ensures var (s', events) := OpenCall(names, s, tc);
            var (t, events') := Play(names, s.turn, if tc.index in r.seen then [] else [Start(tc.id, tc.name)]);
            && Reads(s', ReadCall(r, tc).0) && s' == s.(turn := t, slots := s'.slots)
            && events == events' && t.id == s.turn.id
            && s'.slots[tc.index] == Place(t.textPos, NumberOf(r.seen, tc.index))
  {
    assert tc.index in s.slots <==> tc.index in r.seen;
    if tc.index !in r.seen {
      PlayOne(names, s.turn, Start(tc.id, tc.name));
      ReadsNewCall(s, r, OpenCall(names, s, tc).0, tc.index);
    } else {
      ReadsKnownCall(s, r, tc.index);
    }
  }

  lemma CallStep(names: ToolNames, s: State, r: Reading, tc: ToolCallDelta)
    requires Reads(s, r)
    ensures var (s', events) := OnToolCall(names, s, tc);
            var (r', pieces) := ReadCall(r, tc);
            var (t, events') := Play(names, s.turn, pieces);
            Reads(s', r') && s' == s.(turn := t, slots := s'.slots) && events == events' && t.id == s.turn.id
  {
    var (s1, e1) := OpenCall(names, s, tc);
    OpenStep(names, s, r, tc);
    var open := if tc.index in r.seen then [] else [Start(tc.id, tc.name)];
    var feed := Feed(NumberOf(r.seen, tc.index), tc.arguments);
    var (s2, e2) := FeedCall(names, s1, tc);
    if tc.arguments == "" {
      assert open + [] == open && e1 + [] == e1;
    } else {
      PlayAppend(names, s.turn, open, [feed]);
      PlayOne(names, s1.turn, feed);
      ArgsKeepShape(names, s1, r, tc);
    }
  }

  lemma ArgsKeepShape(names: ToolNames, s: State, r: Reading, tc: ToolCallDelta)
    requires tc.index in s.slots
    ensures var s' := FeedCall(names, s, tc).0;
            && |s'.turn.items| == |s.turn.items| && s'.turn.textPos == s.turn.textPos && s'.turn.id == s.turn.id
            && s' == s.(turn := s'.turn)
  {
  }

  lemma {:induction false} CallsStep(names: ToolNames, s: State, r: Reading, calls: seq<ToolCallDelta>)
    requires Reads(s, r)
    ensures var (s', events) := OnToolCalls(names, s, calls);
            var (r', pieces) := ReadCalls(r, calls);
            var (t, events') := Play(names, s.turn, pieces);
            Reads(s', r') && s' == s.(turn := t, slots := s'.slots) && events == events' && t.id == s.turn.id
    decreases |calls|
  {
    if calls == [] {
      PlayNothing(names, s.turn);
    } else {
      hide OnToolCall, ReadCall, Reads, Play;
      var init, last := calls[..|calls| - 1], calls[|calls| - 1];
      CallsStep(names, s, r, init);
      var (s1, e1) := OnToolCalls(names, s, init);
      var (r1, p1) := ReadCalls(r, init);
      CallStep(names, s1, r1, last);
      PlayAppend(names, s.turn, p1, ReadCall(r1, last).1);
    }
  }

  lemma ChoiceStep(names: ToolNames, s: State, r: Reading, choice: Choice)
    requires Reads(s, r)
    ensures var (s', events) := OnChoice(names, s, choice);
            var (r', pieces) := ReadChoice(r, choice);
            var (t, events') := Play(names, s.turn, pieces);
            && Reads(s', r') && events == events' && t.id == s.turn.id
            && s' == OnFinish(s.(turn := t, slots := s'.slots), choice.finish)
  {
    hide OnContent, OnToolCalls, ReadContent, ReadCalls, Play;
    var (s1, e1) := OnContent(names, s, choice.content);
    var (r1, p1) := ReadContent(r, choice.content);
    ContentStep(names, s, r, choice.content);
    CallsStep(names, s1, r1, choice.toolCalls);
    PlayAppend(names, s.turn, p1, ReadCalls(r1, choice.toolCalls).1);
  }

  // ---- a whole stream ----

  function Run(names: ToolNames, chunks: seq<Chunk>): (State, seq<Event>) {
    if chunks == [] then (Initial(), [])
    else
      var (s1, e1) := Run(names, chunks[..|chunks| - 1]);
      var (s2, e2) := OnChunk(names, s1, chunks[|chunks| - 1]);
      (s2, e1 + e2)
  }

  /** Chunks of a turn: each has a choice, and only the last may finish. */
  predicate Ongoing(chunks: seq<Chunk>) {
    && (forall k | 0 <= k < |chunks| :: chunks[k].choices != [])
    && (forall k | 0 <= k < |chunks| - 1 :: chunks[k].choices[0].finish == "")
  }

  lemma {:induction false} BodyRuns(names: ToolNames, body: seq<Chunk>)
    requires body != [] && Ongoing(body)
    ensures var (s, events) := Run(names, body);
            var (r, pieces) := ReadChunks(body);
            var (t, played) := Play(names, NewTurn(body[0].id), pieces);
            && Reads(s, r) && s.turn == t && t.id == body[0].id && events == [Created(body[0].id)] + played
            && s.started && s.held == body[|body| - 1].choices[0].finish && (s.finished <==> s.held != "")
            && s.model == body[0].model && s.usage == LastUsage(body)
    decreases |body|
  {
    hide OnChoice, ReadChoice, Play, Reads;
    var init, last := body[..|body| - 1], body[|body| - 1];
    var (s1, e1) := Run(names, init);
    var (r1, p1) := ReadChunks(init);
    var usage := LastUsage(body);
    if init == [] {
      StartReads(last);
      PlayNothing(names, NewTurn(last.id));
    } else {
      assert init[|init| - 1] == body[|body| - 2];
      BodyRuns(names, init);
    }
    var s2 := s1.(usage := usage, started := true, turn := s1.turn.(id := body[0].id), model := body[0].model);
    ReadsIgnoresUsage(s1, s2, r1);
    ChoiceStep(names, s2, r1, last.choices[0]);
    PlayAppend(names, NewTurn(body[0].id), p1, ReadChoice(r1, last.choices[0]).1);
    var start := if init == [] then [Created(last.id)] else [];
    var (s3, e3) := OnChoice(names, s2, last.choices[0]);
    var counted := if last.usage.Some? then s1.(usage := last.usage) else s1;
    assert s1.usage == LastUsage(init);
    assert usage == if last.usage.Some? then last.usage else LastUsage(init);
    assert counted.usage == usage;
    assert counted == s1.(usage := usage);
    assert TerminalOf(names, counted) == (counted, []);
    assert OnStart(counted, last) == (s2, start);
    assert OnChunk(names, s1, last) == (s3, [] + start + e3);
    var played1 := Play(names, NewTurn(body[0].id), p1).1;
    assert e1 + ([] + start + e3) == [Created(body[0].id)] + (played1 + e3);
  }

  lemma StartReads(chunk: Chunk)
    ensures Reads(Initial(), Reading([], false))
  {
  }

  lemma ReadsIgnoresUsage(s: State, s': State, r: Reading)
    requires Reads(s, r)
    requires s'.slots == s.slots && s'.turn == s.turn.(id := s'.turn.id)
    ensures Reads(s', r)
  {
  }

  /** A turn as an upstream sends it: chunks of which the last has a finish
      reason, possibly choice-less chunks (the usage trailer), then [DONE]. */
  predicate WellFormed(chunks: seq<Chunk>, trailer: seq<Chunk>) {
    && chunks != [] && Ongoing(chunks) && chunks[|chunks| - 1].choices[0].finish != ""
    && (forall k | 0 <= k < |trailer| :: trailer[k].choices == [])
  }

  /** Everything a client receives for the stream. */
  function StreamEvents(names: ToolNames, chunks: seq<Chunk>, trailer: seq<Chunk>): seq<Event> {
    var (s, events) := Run(names, chunks + trailer);
    events + TerminalOf(names, s).1
  }

  /** What had been reported when the terminal was emitted: the first trailer
      chunk flushes it, with its own usage if it has one. */
  function UsageAtTerminal(chunks: seq<Chunk>, trailer: seq<Chunk>): Option<Usage> {
    LastUsage(if trailer == [] then chunks else chunks + [trailer[0]])
  }

  lemma RunSnoc(names: ToolNames, chunks: seq<Chunk>, last: Chunk)
    ensures var (s, events) := Run(names, chunks);
            var (s', more) := OnChunk(names, s, last);
            Run(names, chunks + [last]) == (s', events + more)
  {
    assert (chunks + [last])[..|chunks|] == chunks;
  }

  /** A chunk without a choice does no more than flush the terminal. */
  lemma TrailerStep(names: ToolNames, s: State, chunk: Chunk)
    requires chunk.choices == []
    ensures var counted := if chunk.usage.Some? then s.(usage := chunk.usage) else s;
            OnChunk(names, s, chunk) == TerminalOf(names, counted)
  {
    hide Terminal, OnChoice;
    var counted := if chunk.usage.Some? then s.(usage := chunk.usage) else s;
    var e := TerminalOf(names, counted).1;
    assert e + [] == e;
  }

  /** The first choice-less chunk after the finish reason flushes the terminal,
      the others emit nothing. */
  lemma {:induction false} TrailerRuns(names: ToolNames, chunks: seq<Chunk>, trailer: seq<Chunk>)
    requires WellFormed(chunks, trailer) && trailer != []
    ensures var (s0, e0) := Run(names, chunks);
            var (s, events) := Run(names, chunks + trailer);
            && s.held == ""
            && events == e0 + TerminalOf(names, s0.(usage := UsageAtTerminal(chunks, trailer))).1
    decreases |trailer|
  {
    hide Terminal, OnChoice, OnChunk, Run, Play, ReadChunks, Reads;
    BodyRuns(names, chunks);
    var init, last := trailer[..|trailer| - 1], trailer[|trailer| - 1];
    assert chunks + trailer == (chunks + init) + [last];
    RunSnoc(names, chunks + init, last);
    if init == [] {
      assert chunks + init == chunks;
      var (s0, e0) := Run(names, chunks);
      TrailerStep(names, s0, last);
      assert (chunks + [last])[..|chunks|] == chunks;
    } else {
      TrailerRuns(names, chunks, init);
      var (s1, e1) := Run(names, chunks + init);
      TrailerStep(names, s1, last);
      assert e1 + [] == e1;
    }
  }

  /** The converter's output on a well-formed stream is the canonical event
      sequence of the pieces read off it. */
  lemma ChatIsCanonical(names: ToolNames, chunks: seq<Chunk>, trailer: seq<Chunk>)
    requires WellFormed(chunks, trailer)
    ensures StreamEvents(names, chunks, trailer) ==
            Canonical(names, chunks[0].id, chunks[0].model, Pieces(chunks),
                      ResponseStatusFromFinish(chunks[|chunks| - 1].choices[0].finish),
                      UsageOf(UsageAtTerminal(chunks, trailer)))
  {
    hide Terminal, Play, Reads;
    BodyRuns(names, chunks);
    var (s0, e0) := Run(names, chunks);
    if trailer == [] {
      assert chunks + trailer == chunks;
    } else {
      TrailerRuns(names, chunks, trailer);
      var (s, e) := Run(names, chunks + trailer);
      assert e + [] == e;
    }
  }

  // ---- announced positions, on every stream ----

  /** The announcements so far agree with the output the turn would render now. */
  ghost predicate Agrees(names: ToolNames, events: seq<Event>, s: State) {
    PositionsAgree(Announced(events), Output(names, s.turn)) && (!s.started ==> s.turn.items == [])
  }

  lemma ActAgrees(names: ToolNames, events: seq<Event>, s: State, a: Action)
    requires Agrees(names, events, s) && s.started
    ensures var (t, more) := Act(names, s.turn, a);
            Agrees(names, events + more, s.(turn := t))
  {
    ActKeepsPositions(names, s.turn, a, Announced(events));
    AnnouncedAppend(events, Act(names, s.turn, a).1);
  }

  lemma ChoiceAgrees(names: ToolNames, events: seq<Event>, s: State, choice: Choice)
    requires Agrees(names, events, s) && s.started
    ensures var (s', more) := OnChoice(names, s, choice);
            Agrees(names, events + more, s') && s'.started
  {
    hide Act, Agrees, OnToolCalls;
    var (s1, e1) := OnContent(names, s, choice.content);
    assert Agrees(names, events + e1, s1) && s1.started by {
      if choice.content != "" {
        ActAgrees(names, events, s, OpenText);
        var (t, open) := Act(names, s.turn, OpenText);
        ActAgrees(names, events + open, s.(turn := t), AddText(choice.content));
        assert (events + open) + Act(names, t, AddText(choice.content)).1 == events + e1;
      } else {
        assert events + e1 == events;
      }
    }
    CallsAgree(names, events + e1, s1, choice.toolCalls);
    var (s2, e2) := OnToolCalls(names, s1, choice.toolCalls);
    assert (events + e1) + e2 == events + (e1 + e2);
    AgreesTurn(names, events + (e1 + e2), s2, OnFinish(s2, choice.finish));
  }

  lemma AgreesTurn(names: ToolNames, events: seq<Event>, s: State, s': State)
    requires Agrees(names, events, s) && s'.turn == s.turn && (s.started ==> s'.started)
    requires s'.started || !s.started
    ensures Agrees(names, events, s')
  {
  }

  lemma CallAgrees(names: ToolNames, events: seq<Event>, s: State, tc: ToolCallDelta)
    requires Agrees(names, events, s) && s.started
    ensures var (s', more) := OnToolCall(names, s, tc);
            Agrees(names, events + more, s') && s'.started
  {
    hide Act, Agrees;
    var (s1, e1) := OpenCall(names, s, tc);
    if tc.index !in s.slots {
      ActAgrees(names, events, s, OpenTool(tc.id, tc.name));
      AgreesTurn(names, events + e1, s.(turn := s1.turn), s1);
    } else {
      assert events + e1 == events;
    }
    var (s2, e2) := FeedCall(names, s1, tc);
    if tc.arguments != "" {
      ActAgrees(names, events + e1, s1, AddArgs(s1.slots[tc.index], tc.arguments));
    } else {
      assert events + e1 + e2 == events + e1;
    }
    assert (events + e1) + e2 == events + (e1 + e2);
  }

  lemma {:induction false} CallsAgree(names: ToolNames, events: seq<Event>, s: State, calls: seq<ToolCallDelta>)
    requires Agrees(names, events, s) && s.started
    ensures var (s', more) := OnToolCalls(names, s, calls);
            Agrees(names, events + more, s') && s'.started
    decreases |calls|
  {
    hide OnToolCall, Agrees;
    if calls == [] {
      assert events + [] == events;
    } else {
      var init, last := calls[..|calls| - 1], calls[|calls| - 1];
      CallsAgree(names, events, s, init);
      var (s1, e1) := OnToolCalls(names, s, init);
      CallAgrees(names, events + e1, s1, last);
      assert (events + e1) + OnToolCall(names, s1, last).1 == events + (e1 + OnToolCall(names, s1, last).1);
    }
  }

  lemma {:induction false} NothingAnnounced(items: seq<OutItem>)
    ensures Announced(Completions(items)) == []
    decreases |items|
  {
    if items != [] {
      var init, last := items[..|items| - 1], items[|items| - 1];
      NothingAnnounced(init);
      var c := ItemCompletion(|items| - 1, last);
      assert Announced(c) == [] by {
        assert c == [c[0]] + c[1..];
        assert forall k | 0 <= k < |c| :: !c[k].ItemAdded?;
        NoItemAdded(c);
      }
      AnnouncedAppend(Completions(init), c);
    }
  }

  lemma {:induction false} NoItemAdded(events: seq<Event>)
    requires forall k | 0 <= k < |events| :: !events[k].ItemAdded?
    ensures Announced(events) == []
    decreases |events|
  {
    if events != [] { NoItemAdded(events[..|events| - 1]); }
  }

  lemma TerminalAnnouncesNothing(names: ToolNames, s: State)
    ensures Announced(TerminalOf(names, s).1) == []
  {
    if s.held != "" {
      hide Completions, Output;
      NothingAnnounced(Output(names, s.turn));
      var e := TerminalOf(names, s).1;
      AnnouncedAppend(e[..|e| - 1], [e[|e| - 1]]);
      AnnouncedOne(e[|e| - 1]);
      assert e == e[..|e| - 1] + [e[|e| - 1]];
      assert e[..|e| - 1] == Completions(Output(names, s.turn));
    }
  }

  lemma ChunkAgrees(names: ToolNames, events: seq<Event>, s: State, chunk: Chunk)
    requires Agrees(names, events, s)
    ensures var (s', more) := OnChunk(names, s, chunk);
            Agrees(names, events + more, s')
  {
    hide OnChoice, Agrees, Announced, Terminal;
    var counted := if chunk.usage.Some? then s.(usage := chunk.usage) else s;
    AgreesTurn(names, events, s, counted);
    var (s1, e1) := TerminalOf(names, counted);
    TerminalAnnouncesNothing(names, counted);
    AgreesSilently(names, events, e1, counted, s1);
    hide TerminalOf;
    var (s2, e2) := OnStart(s1, chunk);
    StartAgrees(names, events + e1, s1, chunk);
    hide OnStart;
    assert (events + e1) + e2 == events + (e1 + e2);
    if chunk.choices != [] {
      ChoiceAgrees(names, events + (e1 + e2), s2, chunk.choices[0]);
      var e3 := OnChoice(names, s2, chunk.choices[0]).1;
      assert (events + (e1 + e2)) + e3 == events + (e1 + e2 + e3);
    }
  }

  lemma {:induction false} RunAgrees(names: ToolNames, chunks: seq<Chunk>)
    ensures var (s, events) := Run(names, chunks);
            Agrees(names, events, s)
    decreases |chunks|
  {
    if chunks != [] {
      hide OnChunk;
      RunAgrees(names, chunks[..|chunks| - 1]);
      var (s, events) := Run(names, chunks[..|chunks| - 1]);
      ChunkAgrees(names, events, s, chunks[|chunks| - 1]);
    }
  }

  lemma {:induction false} AgreesSilently(names: ToolNames, events: seq<Event>, more: seq<Event>, s: State, s': State)
    requires Agrees(names, events, s) && Announced(more) == [] && s'.turn == s.turn && s'.started == s.started
    ensures Agrees(names, events + more, s')
  {
    AnnouncedAppend(events, more);
    assert Announced(events) + [] == Announced(events);
  }

  lemma StartAgrees(names: ToolNames, events: seq<Event>, s: State, chunk: Chunk)
    requires Agrees(names, events, s)
    ensures var (s', more) := OnStart(s, chunk);
            Agrees(names, events + more, s') && (chunk.choices != [] ==> s'.started)
  {
    var (s', more) := OnStart(s, chunk);
    if more == [] {
      assert events + more == events;
    } else {
      AnnouncedAppend(events, more);
      AnnouncedOne(more[0]);
      assert Announced(events) == [];
    }
  }

  /** Whatever the upstream sends, whenever the terminal is rendered, output[k]
      of the completed response is the item announced with output_index k. */
  lemma AnnouncedIndexIsFinalPositionAlways(names: ToolNames, chunks: seq<Chunk>)
    ensures var (s, events) := Run(names, chunks);
            var terminal := TerminalOf(names, s).1;
            s.held != "" ==>
              && terminal != [] && terminal[|terminal| - 1].Completed?
              && PositionsAgree(Announced(events), terminal[|terminal| - 1].output)
  {
    RunAgrees(names, chunks);
  }
}
