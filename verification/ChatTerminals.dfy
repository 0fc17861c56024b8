/** Where a chat stream, whatever it sends, begins and ends for a Responses client. */
module ChatTerminals {
  import opened Basics
  import opened ResponseTools
  import opened Wire
  import opened ChatChunks
  import opened ResponsesTurn
  import opened ChatToResponses
  import opened ChatMeaning
  import opened StreamedItems
  import Claude = ChatClaudeMeaning

  // ---- the beginnings and ends among the events ----

  function Beginnings(events: seq<Event>): seq<string> {
    if events == [] then []
    else Beginnings(events[..|events| - 1]) + match events[|events| - 1] case Created(id) => [id] case _ => []
  }

  /** Model, status and usage of every response.completed. */
  function Ends(events: seq<Event>): seq<(string, string, ResponsesUsage)> {
    if events == [] then []
    else
      Ends(events[..|events| - 1]) +
      match events[|events| - 1] case Completed(_, model, status, usage, _) => [(model, status, usage)] case _ => []
  }

  lemma {:induction false} MarksAppend(a: seq<Event>, b: seq<Event>)
    ensures Beginnings(a + b) == Beginnings(a) + Beginnings(b) && Ends(a + b) == Ends(a) + Ends(b)
    decreases |b|
  {
    if b == [] {
      assert a + b == a;
    } else {
      assert (a + b)[..|a + b| - 1] == a + b[..|b| - 1];
      MarksAppend(a, b[..|b| - 1]);
    }
  }

  lemma MarksOfOne(e: Event)
    ensures Beginnings([e]) == match e case Created(id) => [id] case _ => []
    ensures Ends([e]) == match e case Completed(_, model, status, usage, _) => [(model, status, usage)] case _ => []
  {
    assert [e][..0] == [];
  }

  lemma {:induction false} NoMarks(events: seq<Event>)
    requires forall e | e in events :: !e.Created? && !e.Completed?
    ensures Beginnings(events) == [] && Ends(events) == []
    decreases |events|
  {
    if events != [] { NoMarks(events[..|events| - 1]); }
  }

  predicate Between(events: seq<Event>) {
    forall e | e in events :: !e.Created? && !e.Completed?
  }

  // ---- what a choice sends ----

  lemma ActIsBetween(names: ToolNames, t: Turn, a: Action)
    ensures Between(Act(names, t, a).1)
  {
  }

  lemma EntryIsBetween(names: ToolNames, s: State, tc: ToolCallDelta)
    ensures var (s', events) := OnToolCall(names, s, tc);
            Between(events) && s' == s.(turn := s'.turn, slots := s'.slots)
  {
    hide Act;
    ActIsBetween(names, s.turn, OpenTool(tc.id, tc.name));
    var s1 := OpenCall(names, s, tc).0;
    ActIsBetween(names, s1.turn, AddArgs(s1.slots[tc.index], tc.arguments));
  }

  lemma {:induction false} EntriesAreBetween(names: ToolNames, s: State, calls: seq<ToolCallDelta>)
    ensures var (s', events) := OnToolCalls(names, s, calls);
            Between(events) && s' == s.(turn := s'.turn, slots := s'.slots)
    decreases |calls|
  {
    hide OnToolCall;
    if calls != [] {
      EntriesAreBetween(names, s, calls[..|calls| - 1]);
      EntryIsBetween(names, OnToolCalls(names, s, calls[..|calls| - 1]).0, calls[|calls| - 1]);
    }
  }

  lemma ChoiceIsBetween(names: ToolNames, s: State, choice: Choice)
    ensures var (s', events) := OnChoice(names, s, choice);
            && Between(events) && s'.model == s.model && s'.started == s.started && s'.usage == s.usage
            && s'.finished == (s.finished || choice.finish != "")
            && s'.held == if choice.finish != "" && !s.finished then choice.finish else s.held
  {
    hide Act, OnToolCalls;
    ActIsBetween(names, s.turn, OpenText);
    ActIsBetween(names, Act(names, s.turn, OpenText).0, AddText(choice.content));
    EntriesAreBetween(names, OnContent(names, s, choice.content).0, choice.toolCalls);
  }

  lemma {:induction false} CompletionsAreBetween(items: seq<OutItem>)
    ensures Between(Completions(items))
    decreases |items|
  {
    hide Concat;
    if items != [] { CompletionsAreBetween(items[..|items| - 1]); }
  }

  lemma TerminalMarks(names: ToolNames, s: State)
    ensures var (s', events) := TerminalOf(names, s);
            && s' == s.(held := "") && Beginnings(events) == []
            && Ends(events) ==
                 if s.held == "" then []
                 else [(s.model, if s.held == "length" then "incomplete" else "completed", Reported(s.usage))]
  {
    hide Completions, Output, Between, Beginnings, Ends;
    Nothing();
    if s.held != "" {
      var output := Output(names, s.turn);
      var end := Completed(s.turn.id, s.model, ResponseStatusFromFinish(s.held), UsageOf(s.usage), output);
      CompletionsAreBetween(output);
      BetweenMarksNothing(Completions(output));
      MarksAppend(Completions(output), [end]);
      MarksOfOne(end);
      assert [] + Ends([end]) == Ends([end]);
    }
  }

  lemma Nothing()
    ensures Beginnings([]) == [] && Ends([]) == []
  {
  }

  lemma BetweenMarksNothing(events: seq<Event>)
    requires Between(events)
    ensures Beginnings(events) == [] && Ends(events) == []
  {
    NoMarks(events);
  }

  // ---- whole streams ----

  /** The first chunk with a choice. */
  function FirstChoice(chunks: seq<Chunk>): (r: Option<nat>)
    ensures r.Some? ==> r.value < |chunks| && chunks[r.value].choices != []
  {
    if chunks == [] then None
    else
      var n := |chunks| - 1;
      var before := FirstChoice(chunks[..n]);
      if before.Some? then before else if chunks[n].choices != [] then Some(n) else None
  }

  /** The end of a stream that finished in its k-th chunk, with the last usage reported
      up to one chunk later. */
  function EndAt(chunks: seq<Chunk>, k: nat): (string, string, ResponsesUsage)
    requires k < |chunks| && chunks[k].choices != [] && FirstChoice(chunks).Some?
  {
    (chunks[FirstChoice(chunks).value].model,
     if chunks[k].choices[0].finish == "length" then "incomplete" else "completed",
     Reported(LastUsage(if k + 2 <= |chunks| then chunks[..k + 2] else chunks)))
  }

  ghost predicate Marked(chunks: seq<Chunk>, s: State, events: seq<Event>) {
    var first, finish := FirstChoice(chunks), Claude.FinishChunk(chunks);
    && (s.started <==> first.Some?) && (s.finished <==> finish.Some?) && (finish.Some? ==> first.Some?)
    && s.usage == LastUsage(chunks) && (first.Some? ==> s.model == chunks[first.value].model)
    && s.held == Claude.HeldSoFar(chunks)
    && Beginnings(events) == (if first.Some? then [chunks[first.value].id] else [])
    && Ends(events) ==
         if finish.Some? && finish.value + 1 < |chunks| then [EndAt(chunks, finish.value)] else []
  }

  lemma FirstSnoc(chunks: seq<Chunk>, last: Chunk)
    ensures FirstChoice(chunks + [last]) ==
            if FirstChoice(chunks).Some? then FirstChoice(chunks)
            else if last.choices != [] then Some(|chunks|) else None
    ensures LastUsage(chunks + [last]) == if last.usage.Some? then last.usage else LastUsage(chunks)
  {
    assert (chunks + [last])[..|chunks|] == chunks;
  }

  /** What one chunk sends and does. */
  lemma ChunkSends(names: ToolNames, s: State, chunk: Chunk)
    ensures var (s', more) := OnChunk(names, s, chunk);
            var usage := if chunk.usage.Some? then chunk.usage else s.usage;
            var starts := !s.started && chunk.choices != [];
            && s'.usage == usage && s'.started == (s.started || chunk.choices != [])
            && s'.model == (if starts then chunk.model else s.model)
            && Beginnings(more) == (if starts then [chunk.id] else [])
            && Ends(more) ==
                 (if s.held == "" then []
                  else [(s.model, if s.held == "length" then "incomplete" else "completed", Reported(usage))])
            && var finish := if chunk.choices == [] then "" else chunk.choices[0].finish;
            && s'.finished == (s.finished || finish != "") && s'.held == if s.finished then "" else finish
  {
    hide OnChoice, TerminalOf, Beginnings, Ends, Reported;
    var counted := if chunk.usage.Some? then s.(usage := chunk.usage) else s;
    TerminalMarks(names, counted);
    var (s1, e1) := TerminalOf(names, counted);
    var (s2, e2) := OnStart(s1, chunk);
    var e3 := if chunk.choices == [] then [] else OnChoice(names, s2, chunk.choices[0]).1;
    if chunk.choices != [] { ChoiceIsBetween(names, s2, chunk.choices[0]); }
    NoMarks(e3);
    if e2 == [] { NoMarks(e2); } else { MarksOfOne(e2[0]); }
    MarksAppend(e1 + e2, e3);
    MarksAppend(e1, e2);
    assert e1 + e2 + [] == e1 + e2;
  }

  lemma {:induction false} ChunkMarks(names: ToolNames, chunks: seq<Chunk>, s: State, events: seq<Event>, last: Chunk)
    requires Marked(chunks, s, events)
    ensures var (s', more) := OnChunk(names, s, last); Marked(chunks + [last], s', events + more)
  {
    hide OnChunk, FirstChoice, Claude.FinishChunk, LastUsage, Beginnings, Ends, Reported, EndAt, Claude.HeldSoFar;
    FirstSnoc(chunks, last);
    HeldMore(chunks, last);
    ChunkSends(names, s, last);
    MarksAppend(events, OnChunk(names, s, last).1);
    EndStays(chunks, last);
    EndComes(chunks, last);
  }

  lemma HeldMore(chunks: seq<Chunk>, last: Chunk)
    ensures var all, finish := chunks + [last], Claude.FinishChunk(chunks);
            var reason := if last.choices == [] then "" else last.choices[0].finish;
            && Claude.FinishChunk(all) ==
                 (if finish.Some? then finish else if reason != "" then Some(|chunks|) else None)
            && Claude.HeldSoFar(all) == (if finish.Some? then "" else reason)
            && Claude.HeldSoFar(chunks) ==
                 (if finish.Some? && finish.value + 1 == |chunks| then chunks[finish.value].choices[0].finish else "")
  {
    hide Claude.FinishChunk;
    var all := chunks + [last];
    assert all[..|chunks|] == chunks && all[|chunks|] == last;
    Claude.FinishSnoc(all);
  }

  /** The chunk behind the finish reason brings the end, with the usage by then. */
  lemma {:induction false} EndComes(chunks: seq<Chunk>, last: Chunk)
    ensures var all, finish, first := chunks + [last], Claude.FinishChunk(chunks), FirstChoice(chunks);
            finish.Some? && first.Some? && finish.value + 1 == |chunks| ==>
              && FirstChoice(all).Some?
              && EndAt(all, finish.value) ==
                   (chunks[first.value].model,
                    if chunks[finish.value].choices[0].finish == "length" then "incomplete" else "completed",
                    Reported(LastUsage(all)))
  {
    hide Claude.FinishChunk, LastUsage, Reported, FirstChoice;
    FirstSnoc(chunks, last);
    var all := chunks + [last];
    assert all[..|all|] == all;
  }

  /** Later chunks do not move the end. */
  lemma {:induction false} EndStays(chunks: seq<Chunk>, last: Chunk)
    ensures var all, finish := chunks + [last], Claude.FinishChunk(chunks);
            finish.Some? && FirstChoice(chunks).Some? && finish.value + 1 < |chunks| ==>
              FirstChoice(all) == FirstChoice(chunks) && EndAt(all, finish.value) == EndAt(chunks, finish.value)
  {
    hide Claude.FinishChunk, LastUsage, Reported;
    FirstSnoc(chunks, last);
    var finish := Claude.FinishChunk(chunks);
    if finish.Some? && finish.value + 1 < |chunks| {
      assert (chunks + [last])[..finish.value + 2] == chunks[..finish.value + 2];
    }
  }

  lemma {:induction false} RunMarks(names: ToolNames, chunks: seq<Chunk>)
    ensures var (s, events) := Run(names, chunks); Marked(chunks, s, events)
    decreases |chunks|
  {
    hide OnChunk, Marked;
    if chunks == [] {
      NothingIsMarked(names);
    } else {
      var init, last := chunks[..|chunks| - 1], chunks[|chunks| - 1];
      RunMarks(names, init);
      var (s, events) := Run(names, init);
      ChunkMarks(names, init, s, events, last);
      assert init + [last] == chunks;
    }
  }

  lemma NothingIsMarked(names: ToolNames)
    ensures Marked([], Run(names, []).0, Run(names, []).1)
  {
  }

  /** Whatever the chunks are: a Responses client gets one response.created, with the
      identity of the first chunk that has a choice, and one response.completed if any
      chunk has a finish reason, with the status of the first such reason and the usage
      reported up to one chunk later; it comes with the next chunk, or with [DONE] or
      the flush if there is none. */
  lemma {:induction false} BeginsAndEndsOnce(names: ToolNames, chunks: seq<Chunk>)
    ensures var (s, events) := Run(names, chunks);
            var terminal := TerminalOf(names, s).1;
            var first, finish := FirstChoice(chunks), Claude.FinishChunk(chunks);
            && (finish.Some? ==> first.Some?)
            && Beginnings(events + terminal) == (if first.Some? then [chunks[first.value].id] else [])
            && Ends(events + terminal) == (if finish.Some? then [EndAt(chunks, finish.value)] else [])
            && (finish.Some? && finish.value + 1 < |chunks| ==> terminal == [])
  {
    hide FirstChoice, LastUsage, Beginnings, Ends, Reported, OnChunk, Run, Terminal;
    RunMarks(names, chunks);
    var (s, events) := Run(names, chunks);
    TerminalMarks(names, s);
    MarksAppend(events, TerminalOf(names, s).1);
    var finish := Claude.FinishChunk(chunks);
    hide Claude.FinishChunk;
  }
}
