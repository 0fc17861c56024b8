/** What an Anthropic client reads off a converted Chat Completions stream. */
module ChatClaudeMeaning {
  import opened Basics
  import opened Wire
  import opened LineFeed
  import opened ChatChunks
  import opened ChatUnits
  import opened ClaudeClient
  import opened ChatToClaude

  // ---- what the stream says, read off the upstream chunks alone ----

  /** A complete call: named by its first entry, with all its argument fragments. */
  function Called(units: seq<Unit>, index: int): Block
    requires index in Seen(units)
  {
    ToolBlock(Opening(units, index).id, Opening(units, index).name, Arguments(units, index))
  }

  /** The calls in order of first arrival. */
  function Calls(units: seq<Unit>): (r: seq<Block>)
    ensures |r| == |Seen(units)| && forall k | 0 <= k < |r| :: r[k] == Called(units, Seen(units)[k])
  {
    seq(|Seen(units)|, k requires 0 <= k < |Seen(units)| => Called(units, Seen(units)[k]))
  }

  lemma {:induction false} CallsSnoc(units: seq<Unit>, u: Unit)
    ensures !u.Entry? ==> Calls(units + [u]) == Calls(units)
    ensures u.Entry? && u.call.index !in Seen(units) ==>
              Calls(units + [u]) == Calls(units) + [ToolBlock(u.call.id, u.call.name, u.call.arguments)]
    ensures forall k | 0 <= k < |Seen(units)| && u.Entry? && Seen(units)[k] == u.call.index ::
              Calls(units + [u]) == Calls(units)[k := Calls(units)[k].(json := Calls(units)[k].json + u.call.arguments)]
  {
    hide Seen, Opening, Arguments, Spoken, Finished;
    UnitsSnoc(units, u);
    SeenOnce(units);
    var all, seen := units + [u], Seen(units);
    forall k | 0 <= k < |seen|
      ensures seen[k] in Seen(all) && Opening(all, seen[k]) == Opening(units, seen[k])
      ensures !(u.Entry? && u.call.index == seen[k]) ==> Called(all, seen[k]) == Called(units, seen[k])
    {
      assert seen[k] in seen;
      assert Arguments(units, seen[k]) + "" == Arguments(units, seen[k]);
    }
    if u.Entry? && u.call.index !in seen {
      NoArguments(units, u.call.index);
      assert "" + u.call.arguments == u.call.arguments;
    }
  }

  lemma {:induction false} NoArguments(units: seq<Unit>, index: int)
    requires index !in Seen(units)
    ensures Arguments(units, index) == ""
    decreases |units|
  {
    if units != [] { NoArguments(units[..|units| - 1], index); }
  }

  // ---- the converter's state, the client, and what was said ----

  ghost predicate Matches(s: State, c: Client, units: seq<Unit>) {
    && (s.started <==> c.head.Some?) && (s.sent <==> c.final.Some?) && !c.ended
    && (!s.started ==> units == [])
    && |c.blocks| == s.count && ToolsOf(c.blocks) == Calls(units) && TextOf(c.blocks) == Spoken(units)
    && Placed(s.slots, c.blocks, Seen(units))
    && (s.finished <==> Finished(units)) && (s.held != "" ==> s.open.Nothing? && s.finished && !s.sent)
    && (s.sent ==> s.finished)
    && OpenMatches(s, c, units)
  }

  predicate SameEnds(c: Client, c': Client) {
    c'.head == c.head && c'.final == c.final
  }

  ghost predicate OpenMatches(s: State, c: Client, units: seq<Unit>) {
    (s.open.Nothing? <==> !LeftOpen(units)) &&
    match s.open
    case Nothing => c.open == None && Current(units) == None
    case TextAt(b) => c.open == Some(b) && |c.blocks| == b + 1 && c.blocks[b].TextBlock? && Current(units) == None
    case ToolAt(b) => c.open == Some(b) && Current(units).Some? && Current(units).value in s.slots
                      && s.slots[Current(units).value] == b
  }

  lemma CurrentSnoc(units: seq<Unit>, u: Unit)
    ensures Current(units + [u]) ==
            match u
            case Say(_) => None
            case Entry(tc) => (if tc.index in Seen(units) then Current(units) else Some(tc.index))
            case Finish(_) => (if Finished(units) then Current(units) else None)
    ensures LeftOpen(units + [u]) ==
            match u
            case Say(_) => true
            case Entry(tc) => tc.index !in Seen(units) || LeftOpen(units)
            case Finish(_) => Finished(units) && LeftOpen(units)
  {
    assert (units + [u])[..|units|] == units;
  }

  /** The client accepts what closes the open block. */
  lemma ClosingIsAccepted(strict: bool, s: State, c: Client, units: seq<Unit>)
    requires Matches(s, c, units)
    ensures Read(strict, c, Closing(s)) == Some(c.(open := None))
  {
    if s.open.Nothing? {
    } else {
      ReadOne(strict, c, BlockStop(s.open.index));
      if s.open.ToolAt? {
        hide Current, Calls, Spoken, Finished, TextOf;
        var i := Current(units).value;
        assert i in Seen(units);
        var k :| 0 <= k < |Seen(units)| && Seen(units)[k] == i;
        assert s.slots[Seen(units)[k]] < |c.blocks|;
      }
    }
  }

  /** Text on the open text block. */
  lemma MoreTextStep(strict: bool, s: State, c: Client, units: seq<Unit>, text: string)
    requires Matches(s, c, units) && s.started && s.held == "" && s.open.TextAt?
    ensures var (s', events) := OnSay(s, text);
            var c' := Read(strict, c, events);
            c'.Some? && Matches(s', c'.value, units + [Say(text)]) && SameEnds(c, c'.value)
    ensures Read(strict, c, OnSay(s, text).1) == Read(!strict, c, OnSay(s, text).1)
  {
    hide Placed, Calls, Spoken, Finished, LeftOpen, Current, Seen, TextOf, ToolsOf;
    var u := Say(text);
    UnitsSnoc(units, u);
    CallsSnoc(units, u);
    CurrentSnoc(units, u);
    var p := s.open.index;
    ReadOne(true, c, BlockText(p, text));
    ReadOne(false, c, BlockText(p, text));
    PlacedMoreText(s.slots, c.blocks, Seen(units), text);
    TextGrows(c.blocks, text);
  }

  /** Text in a new block. */
  lemma NewTextEvents(strict: bool, s: State, c: Client, units: seq<Unit>, text: string)
    requires Matches(s, c, units) && s.started && !s.open.TextAt?
    ensures Read(strict, c, OnSay(s, text).1) == Some(c.(blocks := c.blocks + [TextBlock(text)], open := Some(s.count)))
  {
    ClosingIsAccepted(strict, s, c, units);
    hide OpenMatches, Placed, Calls, Spoken, Finished, LeftOpen, Current, Seen, TextOf, ToolsOf;
    ReadThen(strict, c, Closing(s), TextStart(s.count));
    ReadThen(strict, c, Closing(s) + [TextStart(s.count)], BlockText(s.count, text));
    assert "" + text == text;
    assert (c.blocks + [TextBlock("")])[s.count := TextBlock(text)] == c.blocks + [TextBlock(text)];
  }

  lemma SayStep(strict: bool, s: State, c: Client, units: seq<Unit>, text: string)
    requires Matches(s, c, units) && s.started && s.held == ""
    ensures var (s', events) := OnSay(s, text);
            var c' := Read(strict, c, events);
            c'.Some? && Matches(s', c'.value, units + [Say(text)]) && SameEnds(c, c'.value)
    ensures Read(strict, c, OnSay(s, text).1) == Read(!strict, c, OnSay(s, text).1)
  {
    hide Placed, Calls, Spoken, Finished, LeftOpen, Current, Seen, TextOf, ToolsOf, Read;
    if s.open.TextAt? {
      MoreTextStep(strict, s, c, units, text);
    } else {
      var u := Say(text);
      UnitsSnoc(units, u);
      CallsSnoc(units, u);
      CurrentSnoc(units, u);
      NewTextEvents(true, s, c, units, text);
      NewTextEvents(false, s, c, units, text);
      PlacedText(s.slots, c.blocks, Seen(units), text);
    }
  }

  lemma FinishStep(strict: bool, s: State, c: Client, units: seq<Unit>, reason: string)
    requires Matches(s, c, units) && s.started && s.held == "" && reason != ""
    ensures var (s', events) := OnUnit(s, Finish(reason));
            var c' := Read(strict, c, events);
            c'.Some? && Matches(s', c'.value, units + [Finish(reason)])
    ensures var events := OnUnit(s, Finish(reason)).1;
            Read(strict, c, events) == Read(!strict, c, events) && Read(strict, c, events).Some?
            && SameEnds(c, Read(strict, c, events).value)
  {
    hide Placed, Calls, Spoken, Finished, LeftOpen, Current, Seen, TextOf, ToolsOf;
    var u := Finish(reason);
    UnitsSnoc(units, u);
    CallsSnoc(units, u);
    CurrentSnoc(units, u);
    ClosingIsAccepted(true, s, c, units);
    ClosingIsAccepted(false, s, c, units);
    assert Spoken(units) + "" == Spoken(units);
  }

  /** A fragment is refused by a strict client exactly when its call's block is not the open one. */
  lemma FeedStep(s: State, c: Client, seen: seq<int>, tc: ToolCallDelta, k: nat)
    requires Placed(s.slots, c.blocks, seen) && k < |seen| && seen[k] == tc.index && !c.ended && tc.arguments != ""
    requires c.head.Some?
    ensures var p := s.slots[tc.index];
            var events := FeedCall(s, tc);
            && p < |c.blocks| && c.blocks[p].ToolBlock?
            && var b := c.blocks[p].(json := c.blocks[p].json + tc.arguments);
            var c' := c.(blocks := c.blocks[p := b]);
            && Read(false, c, events) == Some(c')
            && Read(true, c, events) == (if c.open == Some(p) then Some(c') else None)
            && Placed(s.slots, c'.blocks, seen) && k < |ToolsOf(c.blocks)| && ToolsOf(c.blocks)[k] == c.blocks[p]
            && ToolsOf(c'.blocks) == ToolsOf(c.blocks)[k := b] && TextOf(c'.blocks) == TextOf(c.blocks)
  {
    assert tc.index in s.slots;
    var p := s.slots[tc.index];
    assert p < |c.blocks| && c.blocks[p].ToolBlock? by { assert s.slots[seen[k]] == p; }
    PlacedArguments(s.slots, c.blocks, seen, k, c.blocks[p].(json := c.blocks[p].json + tc.arguments));
    ReadOne(true, c, BlockJson(p, tc.arguments));
    ReadOne(false, c, BlockJson(p, tc.arguments));
  }

  lemma NothingFed(s: State, tc: ToolCallDelta)
    requires tc.index in s.slots && tc.arguments == ""
    ensures FeedCall(s, tc) == []
  {
  }

  /** The first entry of a call, apart from its arguments. */
  lemma {:induction false} OpenStep(strict: bool, s: State, c: Client, units: seq<Unit>, tc: ToolCallDelta)
    requires Matches(s, c, units) && s.started && tc.index !in Seen(units)
    ensures var (s', events) := OpenCall(s, tc);
            var c' := c.(blocks := c.blocks + [ToolBlock(tc.id, tc.name, "")], open := Some(s.count));
            && Read(strict, c, events) == Some(c') && s'.slots == s.slots[tc.index := s.count]
            && Placed(s'.slots, c'.blocks, Seen(units) + [tc.index])
            && ToolsOf(c'.blocks) == Calls(units) + [ToolBlock(tc.id, tc.name, "")]
            && TextOf(c'.blocks) == Spoken(units)
  {
    hide Calls, Spoken, Finished, LeftOpen, Current, Seen, TextOf, ToolsOf;
    ClosingIsAccepted(strict, s, c, units);
    assert tc.index !in s.slots;
    ReadThen(strict, c, Closing(s), ToolStart(s.count, tc.id, tc.name));
    PlacedTool(s.slots, c.blocks, Seen(units), tc.index, ToolBlock(tc.id, tc.name, ""));
  }

  /** The first entry of a call, all of it. */
  lemma {:induction false} NewCallEvents(strict: bool, s: State, c: Client, units: seq<Unit>, tc: ToolCallDelta)
    requires Matches(s, c, units) && s.started && tc.index !in Seen(units)
    ensures var (s', events) := OnEntry(s, tc);
            var b := ToolBlock(tc.id, tc.name, tc.arguments);
            var c' := c.(blocks := c.blocks + [b], open := Some(s.count));
            && Read(strict, c, events) == Some(c')
            && Placed(s'.slots, c'.blocks, Seen(units) + [tc.index])
            && ToolsOf(c'.blocks) == Calls(units) + [b] && TextOf(c'.blocks) == Spoken(units)
  {
    hide Placed, Calls, Spoken, Finished, LeftOpen, Current, Seen, TextOf, ToolsOf, FeedCall;
    OpenStep(strict, s, c, units, tc);
    var (s1, e1) := OpenCall(s, tc);
    var seen, p := Seen(units) + [tc.index], s.count;
    var blank, full := ToolBlock(tc.id, tc.name, ""), ToolBlock(tc.id, tc.name, tc.arguments);
    var c1 := c.(blocks := c.blocks + [blank], open := Some(p));
    if tc.arguments == "" {
      NothingFed(s1, tc);
      assert e1 + [] == e1;
    } else {
      FeedStep(s1, c1, seen, tc, |Seen(units)|);
      ReadAppend(strict, c, e1, FeedCall(s1, tc));
      assert c1.blocks[p] == blank;
      assert "" + tc.arguments == tc.arguments;
      assert c1.blocks[p := full] == c.blocks + [full];
      assert (Calls(units) + [blank])[|Seen(units)| := full] == Calls(units) + [full];
    }
  }

  lemma NewCallStep(strict: bool, s: State, c: Client, units: seq<Unit>, tc: ToolCallDelta)
    requires Matches(s, c, units) && s.started && s.held == "" && tc.index !in Seen(units)
    ensures var (s', events) := OnUnit(s, Entry(tc));
            var c' := Read(strict, c, events);
            c'.Some? && Matches(s', c'.value, units + [Entry(tc)]) && SameEnds(c, c'.value)
    ensures var events := OnUnit(s, Entry(tc)).1;
            Read(strict, c, events) == Read(!strict, c, events)
    ensures Current(units + [Entry(tc)]) == Some(tc.index)
  {
    hide Placed, Calls, Spoken, Finished, LeftOpen, Current, TextOf, ToolsOf, FeedCall, Read;
    var u := Entry(tc);
    UnitsSnoc(units, u);
    CallsSnoc(units, u);
    CurrentSnoc(units, u);
    hide Seen;
    NewCallEvents(true, s, c, units, tc);
    NewCallEvents(false, s, c, units, tc);
    assert Spoken(units) + "" == Spoken(units);
    NotYetSlotted(s, c, units, tc.index);
  }

  lemma NotYetSlotted(s: State, c: Client, units: seq<Unit>, index: int)
    requires Matches(s, c, units) && index !in Seen(units)
    ensures index !in s.slots
  {
  }

  lemma {:induction false} KnownCallStep(s: State, c: Client, units: seq<Unit>, tc: ToolCallDelta)
    requires Matches(s, c, units) && s.started && s.held == "" && tc.index in Seen(units)
    ensures var (s', events) := OnUnit(s, Entry(tc));
            var c' := Read(false, c, events);
            && c'.Some? && Matches(s', c'.value, units + [Entry(tc)]) && SameEnds(c, c'.value)
            && Read(true, c, events) ==
               if tc.arguments != "" && Current(units + [Entry(tc)]) != Some(tc.index) then None else c'
  {
    hide Calls, Spoken, Finished, LeftOpen, Current, TextOf, ToolsOf, FeedCall;
    var u := Entry(tc);
    UnitsSnoc(units, u);
    CallsSnoc(units, u);
    CurrentSnoc(units, u);
    hide Seen;
    assert tc.index in s.slots;
    assert OnUnit(s, u) == (s, [] + FeedCall(s, tc));
    assert [] + FeedCall(s, tc) == FeedCall(s, tc);
    assert Spoken(units) + "" == Spoken(units);
    var k :| 0 <= k < |Seen(units)| && Seen(units)[k] == tc.index;
    if tc.arguments == "" {
      NothingFed(s, tc);
      assert Calls(units)[k].json + "" == Calls(units)[k].json;
      assert Calls(units)[k := Calls(units)[k]] == Calls(units);
      assert Calls(units + [u]) == Calls(units);
    } else {
      FeedStep(s, c, Seen(units), tc, k);
      SlotsDiffer(s, c, units, tc.index);
    }
  }

  /** Different calls have different blocks. */
  lemma SlotsDiffer(s: State, c: Client, units: seq<Unit>, index: int)
    requires Matches(s, c, units) && index in Seen(units)
    ensures index in s.slots && (c.open == Some(s.slots[index]) <==> Current(units) == Some(index))
  {
    hide Calls, Spoken, Finished, LeftOpen, Current, TextOf, ToolsOf, Seen;
    var seen := Seen(units);
    var k :| 0 <= k < |seen| && seen[k] == index;
    assert c.blocks[s.slots[seen[k]]].ToolBlock?;
    if Current(units).Some? {
      var i := Current(units).value;
      assert i in seen;
      var j :| 0 <= j < |seen| && seen[j] == i;
      assert |ToolsOf(c.blocks[..s.slots[seen[j]]])| == j;
      assert |ToolsOf(c.blocks[..s.slots[seen[k]]])| == k;
    }
  }

  lemma SayIs(s: State, text: string)
    ensures OnUnit(s, Say(text)) == OnSay(s, text)
  {
  }

  lemma UnitStep(s: State, c: Client, units: seq<Unit>, u: Unit)
    requires Matches(s, c, units) && s.started && s.held == "" && (u.Finish? ==> u.reason != "")
    ensures var (s', events) := OnUnit(s, u);
            var c' := Read(false, c, events);
            && c'.Some? && Matches(s', c'.value, units + [u]) && SameEnds(c, c'.value)
            && (!Resumes(units) ==> Read(true, c, events) == if Resumes(units + [u]) then None else c')
    ensures Resumes(units) ==> Resumes(units + [u])
  {
    hide Matches, OnUnit, Read, Current, Resumes, Seen;
    ResumesSnoc(units, u);
    match u
    case Say(t) =>
      SayStep(false, s, c, units, t);
      assert OnUnit(s, u) == OnSay(s, t) by { SayIs(s, t); }
    case Finish(f) =>
      FinishStep(false, s, c, units, f);
    case Entry(tc) =>
      if tc.index in Seen(units) {
        KnownCallStep(s, c, units, tc);
      } else {
        NewCallStep(false, s, c, units, tc);
      }
  }

  // ---- the reading of a run ----

  /** A lenient client has read the events so far; a strict one refuses them
      exactly when the stream resumes a call. */
  ghost predicate Follows(s: State, events: seq<ClaudeEvent>, units: seq<Unit>, head: Option<Head>,
                          final: Option<Final>) {
    var c := Read(false, NEW_CLIENT, events);
    && c.Some? && Matches(s, c.value, units) && c.value.head == head && c.value.final == final
    && Read(true, NEW_CLIENT, events) == if Resumes(units) then None else c
  }

  lemma {:induction false} FollowsUnit(s: State, events: seq<ClaudeEvent>, units: seq<Unit>, head: Option<Head>,
                                       final: Option<Final>, u: Unit)
    requires Follows(s, events, units, head, final) && s.started && s.held == "" && (u.Finish? ==> u.reason != "")
    ensures var (s', more) := OnUnit(s, u);
            Follows(s', events + more, units + [u], head, final)
  {
    hide Matches, OnUnit, Resumes, Read;
    var c := Read(false, NEW_CLIENT, events).value;
    UnitStep(s, c, units, u);
    ReadAppend(true, NEW_CLIENT, events, OnUnit(s, u).1);
    ReadAppend(false, NEW_CLIENT, events, OnUnit(s, u).1);
  }

  lemma OnUnitKeeps(s: State, u: Unit)
    ensures var s' := OnUnit(s, u).0;
            && s'.started == s.started && s'.usage == s.usage && s'.sent == s.sent
            && (!u.Finish? ==> s'.held == s.held)
  {
  }

  lemma {:induction false} FollowsUnits(s: State, events: seq<ClaudeEvent>, prior: seq<Unit>, head: Option<Head>,
                                        final: Option<Final>, units: seq<Unit>)
    requires Follows(s, events, prior, head, final) && s.started && s.held == ""
    requires forall k | 0 <= k < |units| :: units[k].Finish? ==> k == |units| - 1 && units[k].reason != ""
    ensures var (s', more) := OnUnits(s, units);
            && Follows(s', events + more, prior + units, head, final)
            && s'.started && s'.usage == s.usage && s'.sent == s.sent
            && (units == [] || !units[|units| - 1].Finish? ==> s'.held == "")
    decreases |units|
  {
    hide Follows, OnUnit;
    if units == [] {
      assert events + [] == events && prior + [] == prior;
    } else {
      var init, u := units[..|units| - 1], units[|units| - 1];
      FollowsUnits(s, events, prior, head, final, init);
      var (s1, e1) := OnUnits(s, init);
      FollowsUnit(s1, events + e1, prior + init, head, final, u);
      OnUnitKeeps(s1, u);
      var e2 := OnUnit(s1, u).1;
      assert events + e1 + e2 == events + (e1 + e2);
      assert prior + init + [u] == prior + units;
    }
  }

  // ---- whole runs ----

  function Run(chunks: seq<Chunk>): (State, seq<ClaudeEvent>) {
    if chunks == [] then (Initial(), [])
    else
      var (s1, e1) := Run(chunks[..|chunks| - 1]);
      var (s2, e2) := OnChunk(s1, chunks[|chunks| - 1]);
      (s2, e1 + e2)
  }

  /** The identity of the first chunk with a choice, and its prompt tokens. */
  function HeadOf(chunks: seq<Chunk>): Option<Head> {
    if chunks == [] then None
    else
      var last := chunks[|chunks| - 1];
      var head := HeadOf(chunks[..|chunks| - 1]);
      if head.Some? || last.choices == [] then head
      else Some(Head(last.id, last.model, match last.usage case Some(u) => u.prompt case None => 0))
  }

  /** The first chunk with a finish reason. */
  function FinishChunk(chunks: seq<Chunk>): (r: Option<nat>)
    ensures r.Some? ==> r.value < |chunks| && chunks[r.value].choices != [] && chunks[r.value].choices[0].finish != ""
  {
    if chunks == [] then None
    else
      var n := |chunks| - 1;
      var r := FinishChunk(chunks[..n]);
      if r.Some? then r
      else if chunks[n].choices != [] && chunks[n].choices[0].finish != "" then Some(n)
      else None
  }

  /** The terminal of a turn: calls outrank the finish reason, and cached tokens are
      not counted as input again. */
  function FinalOf(called: bool, finish: string, usage: Option<Usage>): Final {
    Final(if called || finish == "tool_calls" then "tool_use" else if finish == "length" then "max_tokens"
          else if finish == "content_filter" then "refusal" else "end_turn",
          match usage
          case None => ClaudeUsage(0, 0, None, None)
          case Some(u) =>
            var rest := u.prompt - if u.cached.Some? then u.cached.value else 0;
            ClaudeUsage(if rest < 0 then 0 else rest, u.completion, u.cached, None))
  }

  lemma FinalIs(called: bool, finish: string, usage: Option<Usage>)
    ensures FinalOf(called, finish, usage) == Final(StopReason(called, finish), ClaudeUsageOf(usage))
  {
  }

  /** The stop reason of a turn that finished in its k-th chunk, with the last
      usage seen up to one chunk later: the usual place of the usage trailer. */
  function FinalAt(chunks: seq<Chunk>, k: nat): Final
    requires k < |chunks| && chunks[k].choices != []
  {
    FinalOf(Seen(Units(chunks[..k + 1])) != [], chunks[k].choices[0].finish,
            LastUsage(if k + 2 <= |chunks| then chunks[..k + 2] else chunks))
  }

  /** message_delta is withheld until something follows the finish reason. */
  function FinalSoFar(chunks: seq<Chunk>): Option<Final> {
    match FinishChunk(chunks)
    case None => None
    case Some(k) => if k + 1 < |chunks| then Some(FinalAt(chunks, k)) else None
  }

  function HeldSoFar(chunks: seq<Chunk>): string {
    match FinishChunk(chunks)
    case None => ""
    case Some(k) => if k + 1 < |chunks| then "" else chunks[k].choices[0].finish
  }

  ghost predicate RunFollows(chunks: seq<Chunk>) {
    var (s, events) := Run(chunks);
    && Follows(s, events, Units(chunks), HeadOf(chunks), FinalSoFar(chunks))
    && s.usage == LastUsage(chunks) && s.held == HeldSoFar(chunks)
  }

  lemma TerminalStep(s: State, events: seq<ClaudeEvent>, units: seq<Unit>, head: Option<Head>, final: Option<Final>,
                     usage: Option<Usage>)
    requires Follows(s, events, units, head, final)
    ensures var (s', more) := TerminalOf(Counted(s, usage));
            var final' := if s.held == "" then final
                          else Some(FinalOf(Seen(units) != [], s.held, if usage.Some? then usage else s.usage));
            && Follows(s', events + more, units, head, final') && s'.held == "" && s'.started == s.started
            && s'.usage == (if usage.Some? then usage else s.usage)
  {
    FinalIs(Seen(units) != [], s.held, if usage.Some? then usage else s.usage);
    hide Matches, Seen, Resumes, StopReason, ClaudeUsageOf, FinalOf, Read;
    var (s', more) := TerminalOf(Counted(s, usage));
    var c := Read(false, NEW_CLIENT, events).value;
    MatchesFacts(s, c, units);
    if s.held == "" {
      assert events + more == events;
      MatchesTerminal(s, s', c, c, units);
    } else {
      SeenIsSlotted(s, c, units);
      ReadThen(false, NEW_CLIENT, events, more[0]);
      ReadThen(true, NEW_CLIENT, events, more[0]);
      MatchesTerminal(s, s', c, c.(final := Some(Final(more[0].stop, more[0].usage))), units);
    }
  }

  lemma MatchesTerminal(s: State, s': State, c: Client, c': Client, units: seq<Unit>)
    requires Matches(s, c, units)
    requires s' == s.(usage := s'.usage, held := "", sent := s.sent || s.held != "")
    requires c' == c.(final := c'.final) && (c'.final.Some? <==> s'.sent)
    ensures Matches(s', c', units)
  {
  }

  lemma SeenIsSlotted(s: State, c: Client, units: seq<Unit>)
    requires Matches(s, c, units)
    ensures s.slots != map[] <==> Seen(units) != []
  {
    hide Calls, Spoken, Finished, LeftOpen, Current, TextOf, ToolsOf, Seen;
    if Seen(units) != [] {
      assert Seen(units)[0] in s.slots;
    } else {
      assert forall i :: i in s.slots ==> i in Seen(units);
      assert forall i :: i !in s.slots;
    }
  }

  lemma StartStep(s: State, events: seq<ClaudeEvent>, units: seq<Unit>, head: Option<Head>, final: Option<Final>,
                  chunk: Chunk)
    requires Follows(s, events, units, head, final) && chunk.choices != []
    ensures var (s', more) := OnStart(s, chunk);
            var head' := if head.Some? then head
                         else Some(Head(chunk.id, chunk.model,
                                        match chunk.usage case Some(u) => u.prompt case None => 0));
            && Follows(s', events + more, units, head', final)
            && s'.started && s'.held == s.held && s'.usage == s.usage
  {
    hide Calls, Spoken, Finished, LeftOpen, Current, TextOf, ToolsOf, Seen, Resumes;
    var (s', more) := OnStart(s, chunk);
    if s.started {
      assert events + more == events;
    } else {
      ReadThen(false, NEW_CLIENT, events, more[0]);
      ReadThen(true, NEW_CLIENT, events, more[0]);
    }
  }

  lemma {:induction false} EntriesOnly(calls: seq<ToolCallDelta>)
    ensures forall k | 0 <= k < |Entries(calls)| :: Entries(calls)[k].Entry?
    decreases |calls|
  {
    if calls != [] { EntriesOnly(calls[..|calls| - 1]); }
  }

  lemma ChoiceUnitsEnd(choice: Choice)
    ensures var units := ChoiceUnits(choice);
            && (forall k | 0 <= k < |units| :: units[k].Finish? ==> k == |units| - 1 && units[k].reason != "")
            && (choice.finish == "" ==> units == [] || !units[|units| - 1].Finish?)
            && (choice.finish != "" ==> units != [] && units[|units| - 1] == Finish(choice.finish))
  {
    EntriesOnly(choice.toolCalls);
  }

  lemma LastUnitHeld(s: State, units: seq<Unit>, reason: string)
    requires units != [] && units[|units| - 1] == Finish(reason)
    requires forall k | 0 <= k < |units| - 1 :: !units[k].Finish?
    ensures OnUnits(s, units).0.held == if s.finished then s.held else reason
    decreases |units|
  {
    UnitsKeepFinish(s, units[..|units| - 1]);
  }

  lemma {:induction false} UnitsKeepFinish(s: State, units: seq<Unit>)
    requires forall k | 0 <= k < |units| :: !units[k].Finish?
    ensures var s' := OnUnits(s, units).0;
            s'.held == s.held && s'.finished == s.finished
    decreases |units|
  {
    if units != [] { UnitsKeepFinish(s, units[..|units| - 1]); }
  }

  lemma FinishedAppend(a: seq<Unit>, b: seq<Unit>)
    ensures Finished(a + b) <==> Finished(a) || Finished(b)
  {
    if Finished(a) {
      var k :| 0 <= k < |a| && a[k].Finish?;
      assert (a + b)[k].Finish?;
    }
    if Finished(b) {
      var k :| 0 <= k < |b| && b[k].Finish?;
      assert (a + b)[|a| + k].Finish?;
    }
  }

  lemma FinishedChunk(chunk: Chunk)
    ensures Finished(ChunkUnits(chunk)) <==> chunk.choices != [] && chunk.choices[0].finish != ""
  {
    if chunk.choices != [] { ChoiceUnitsEnd(chunk.choices[0]); }
  }

  lemma {:induction false} FinishedRun(chunks: seq<Chunk>)
    ensures Finished(Units(chunks)) <==> FinishChunk(chunks).Some?
    decreases |chunks|
  {
    hide Finished, ChunkUnits;
    if chunks == [] {
      FinishedNothing();
    } else {
      var n := |chunks| - 1;
      FinishedRun(chunks[..n]);
      FinishedChunk(chunks[n]);
      FinishedAppend(Units(chunks[..n]), ChunkUnits(chunks[n]));
    }
  }

  lemma FinishedNothing()
    ensures !Finished([])
  {
  }

  lemma FinishSnoc(chunks: seq<Chunk>)
    requires chunks != []
    ensures var n := |chunks| - 1;
            FinishChunk(chunks) == if FinishChunk(chunks[..n]).Some? then FinishChunk(chunks[..n])
                                   else if chunks[n].choices != [] && chunks[n].choices[0].finish != "" then Some(n)
                                   else None
  {
  }

  /** What a chunk adds to the terminal's expectations. */
  lemma {:induction false} FinalSnoc(chunks: seq<Chunk>)
    requires chunks != []
    ensures var n := |chunks| - 1;
            var last, usage := chunks[n], LastUsage(chunks);
            && FinalSoFar(chunks) == (if HeldSoFar(chunks[..n]) == "" then FinalSoFar(chunks[..n])
                 else Some(FinalOf(Seen(Units(chunks[..n])) != [], HeldSoFar(chunks[..n]), usage)))
            && HeldSoFar(chunks) ==
                 (if FinishChunk(chunks[..n]).None? && last.choices != [] then last.choices[0].finish else "")
  {
    var n := |chunks| - 1;
    var init := chunks[..n];
    FinishSnoc(chunks);
    hide FinishChunk, Seen, Units, LastUsage, FinalOf, FinalAt;
    match FinishChunk(init)
    case None =>
    case Some(k) =>
      if k + 1 < n { FinalAtKept(chunks, k); } else { FinalAtEnd(chunks, k); assert chunks[..k + 1] == init; }
  }

  lemma {:induction false} FinalAtEnd(chunks: seq<Chunk>, k: nat)
    requires k + 2 == |chunks| && chunks[k].choices != []
    ensures FinalAt(chunks, k) ==
            FinalOf(Seen(Units(chunks[..k + 1])) != [], chunks[k].choices[0].finish, LastUsage(chunks))
  {
    assert chunks[..k + 2] == chunks;
  }

  lemma FinalAtKept(chunks: seq<Chunk>, k: nat)
    requires k + 2 < |chunks| && chunks[k].choices != []
    ensures FinalAt(chunks, k) == FinalAt(chunks[..|chunks| - 1], k)
  {
    var init := chunks[..|chunks| - 1];
    assert init[..k + 1] == chunks[..k + 1] && init[..k + 2] == chunks[..k + 2];
  }

  lemma {:induction false} EveryRunFollows(chunks: seq<Chunk>)
    ensures RunFollows(chunks)
    decreases |chunks|
  {
    if chunks == [] {
      assert Placed<int>(map[], [], []);
      assert !Resumes([]);
    } else {
      EveryRunFollows(chunks[..|chunks| - 1]);
      ChunkFollows(chunks);
    }
  }

  lemma ChoiceFollows(s: State, events: seq<ClaudeEvent>, units: seq<Unit>, head: Option<Head>, final: Option<Final>,
                      chunk: Chunk)
    requires Follows(s, events, units, head, final) && s.held == "" && chunk.choices != []
    ensures var (s1, e1) := OnStart(s, chunk);
            var (s2, e2) := OnUnits(s1, ChunkUnits(chunk));
            var head' := if head.Some? then head
                         else Some(Head(chunk.id, chunk.model,
                                        match chunk.usage case Some(u) => u.prompt case None => 0));
            && Follows(s2, events + e1 + e2, units + ChunkUnits(chunk), head', final)
            && s2.usage == s.usage && s2.held == if Finished(units) then "" else chunk.choices[0].finish
  {
    hide Follows, OnUnits, OnStart, ChoiceUnits, Finished;
    var choice := chunk.choices[0];
    StartStep(s, events, units, head, final, chunk);
    var (s1, e1) := OnStart(s, chunk);
    var head' := if head.Some? then head
                 else Some(Head(chunk.id, chunk.model, match chunk.usage case Some(u) => u.prompt case None => 0));
    ChoiceUnitsEnd(choice);
    FollowsUnits(s1, events + e1, units, head', final, ChoiceUnits(choice));
    FollowsFinished(s1, events + e1, units, head', final);
    if choice.finish != "" { LastUnitHeld(s1, ChoiceUnits(choice), choice.finish); }
  }

  lemma ChunkFollows(chunks: seq<Chunk>)
    requires chunks != [] && RunFollows(chunks[..|chunks| - 1])
    ensures RunFollows(chunks)
  {
    hide Follows, OnUnits, TerminalOf, OnStart, FinalSoFar, HeldSoFar, ChunkUnits, FinishChunk, Seen, StopReason,
         ClaudeUsageOf, FinalOf, Finished;
    var n := |chunks| - 1;
    var init, last := chunks[..n], chunks[n];
    var (s, events) := Run(init);
    var units := Units(init);
    TerminalStep(s, events, units, HeadOf(init), FinalSoFar(init), last.usage);
    FinalSnoc(chunks);
    var (s1, e1) := TerminalOf(Counted(s, last.usage));
    var (s2, e2) := OnStart(s1, last);
    var e3 := OnUnits(s2, ChunkUnits(last)).1;
    assert events + e1 + e2 + e3 == events + (e1 + e2 + e3);
    if last.choices == [] {
      NoStart(s1, last);
      NoUnits(s1);
      NoChunkUnits(last);
      assert units + [] == units;
      assert events + (e1 + [] + []) == events + e1;
    } else {
      ChoiceFollows(s1, events + e1, units, HeadOf(init), FinalSoFar(chunks), last);
      FinishedRun(init);
    }
  }

  lemma NoChunkUnits(chunk: Chunk)
    requires chunk.choices == []
    ensures ChunkUnits(chunk) == []
  {
  }

  lemma NoStart(s: State, chunk: Chunk)
    requires chunk.choices == []
    ensures OnStart(s, chunk) == (s, [])
  {
  }

  lemma FollowsFinished(s: State, events: seq<ClaudeEvent>, units: seq<Unit>, head: Option<Head>, final: Option<Final>)
    requires Follows(s, events, units, head, final)
    ensures s.finished <==> Finished(units)
  {
  }

  // ---- the theorems, for every stream ----

  /** Whatever the upstream sends, a client accepts the events, and reads the
      upstream's text, its calls in order of first arrival with their complete
      arguments, the stream's identity, and the terminal once it is due. */
  lemma {:induction false} ClientReadsTheTurn(chunks: seq<Chunk>)
    ensures var c := Read(false, NEW_CLIENT, Run(chunks).1);
            && c.Some? && !c.value.ended
            && TextOf(c.value.blocks) == Spoken(Units(chunks)) && ToolsOf(c.value.blocks) == Calls(Units(chunks))
            && c.value.head == HeadOf(chunks) && c.value.final == FinalSoFar(chunks)
  {
    EveryRunFollows(chunks);
  }

  /** Every delta names the open block exactly when the upstream never resumes a
      call after something else began. */
  lemma DeltasNameTheOpenBlockIff(chunks: seq<Chunk>)
    ensures Read(true, NEW_CLIENT, Run(chunks).1).Some? <==> !Resumes(Units(chunks))
  {
    EveryRunFollows(chunks);
  }

  /** One entry in a chunk of its own. */
  function Lone(id: string, model: string, tc: ToolCallDelta): Chunk {
    Chunk(id, model, [Choice("", [tc], "")], None)
  }

  /** The smallest streams that do: a second call begins before the first one's
      arguments are complete. */
  lemma InterleavedCallsAreRefused(id: string, model: string, a: ToolCallDelta, b: ToolCallDelta, rest: ToolCallDelta)
    requires a.index == rest.index != b.index && rest.arguments != ""
    ensures var events := Run([Lone(id, model, a), Lone(id, model, b), Lone(id, model, rest)]).1;
            Read(true, NEW_CLIENT, events).None? && Read(false, NEW_CLIENT, events).Some?
  {
    hide Run, Read, ChunkUnits, Resumes;
    var x, y, z := Lone(id, model, a), Lone(id, model, b), Lone(id, model, rest);
    ClientReadsTheTurn([x, y, z]);
    DeltasNameTheOpenBlockIff([x, y, z]);
    EntryUnits(x);
    EntryUnits(y);
    EntryUnits(z);
    assert [x, y, z][..2] == [x, y] && [x, y][..1] == [x] && [x][..0] == [];
    assert Units([x]) == [Entry(a)];
    assert Units([x, y]) == [Entry(a), Entry(b)];
    assert Units([x, y, z]) == [Entry(a), Entry(b), Entry(rest)];
    InterleavedResumes(a, b, rest);
  }

  lemma InterleavedResumes(a: ToolCallDelta, b: ToolCallDelta, rest: ToolCallDelta)
    requires a.index == rest.index != b.index && rest.arguments != ""
    ensures Resumes([Entry(a), Entry(b), Entry(rest)])
  {
    var units := [Entry(a), Entry(b), Entry(rest)];
    assert units[..1] == [Entry(a)] && [Entry(a)][..0] == [];
    assert Seen(units[..1]) == [a.index];
    assert ComesBetween(units, 1, 2);
  }

  lemma EntryUnits(chunk: Chunk)
    requires |chunk.choices| == 1 && |chunk.choices[0].toolCalls| == 1
    requires chunk.choices[0].content == "" && chunk.choices[0].finish == ""
    ensures ChunkUnits(chunk) == [Entry(chunk.choices[0].toolCalls[0])]
  {
    var calls := chunk.choices[0].toolCalls;
    assert calls[..0] == [];
    assert Entries(calls) == [Entry(calls[0])];
  }

  /** The message a client has read when the stream is over. */
  ghost predicate Reads(events: seq<ClaudeEvent>, chunks: seq<Chunk>, final: Option<Final>, ended: bool) {
    var c := Read(false, NEW_CLIENT, events);
    && c.Some? && c.value.ended == ended && c.value.open == None
    && TextOf(c.value.blocks) == Spoken(Units(chunks)) && ToolsOf(c.value.blocks) == Calls(Units(chunks))
    && c.value.head == HeadOf(chunks) && c.value.final == final
  }

  /** A withheld message_delta, if there is one, and message_stop. */
  lemma TerminalThenStop(s: State, c: Client, events: seq<ClaudeEvent>)
    requires Read(false, NEW_CLIENT, events) == Some(c) && !c.ended && c.open == None && c.head.Some?
    requires s.held != "" ==> c.final.None?
    ensures Read(false, NEW_CLIENT, events + (TerminalOf(s).1 + [MessageStop])) ==
            Some(c.(ended := true, final := if s.held == "" then c.final
                    else Some(FinalOf(s.slots != map[], s.held, s.usage))))
  {
    FinalIs(s.slots != map[], s.held, s.usage);
    hide Read, StopReason, ClaudeUsageOf, FinalOf;
    var e1 := TerminalOf(s).1;
    if s.held == "" {
      assert e1 + [MessageStop] == [MessageStop];
      ReadThen(false, NEW_CLIENT, events, MessageStop);
    } else {
      ReadThen(false, NEW_CLIENT, events, e1[0]);
      ReadThen(false, NEW_CLIENT, events + e1, MessageStop);
      assert events + (e1 + [MessageStop]) == events + e1 + [MessageStop];
    }
  }

  lemma MatchesFacts(s: State, c: Client, units: seq<Unit>)
    requires Matches(s, c, units)
    ensures !c.ended && (s.sent <==> c.final.Some?) && (s.held != "" ==> !s.sent && s.open.Nothing?)
    ensures (s.started <==> c.head.Some?) && (s.held != "" || s.sent ==> s.started)
    ensures (s.open.Nothing? <==> c.open == None) && (s.open.Nothing? <==> !LeftOpen(units))
    ensures TextOf(c.blocks) == Spoken(units) && ToolsOf(c.blocks) == Calls(units)
  {
  }

  /** [DONE] closes the open block, delivers the terminal if there was a finish
      reason, and ends the message.  Without any chunk that has a choice there is
      no message to end: a lone message_stop is all the client gets, and it
      refuses that. */
  lemma {:induction false} DoneEndsTheMessage(chunks: seq<Chunk>)
    ensures var (s, events) := Run(chunks);
            if HeadOf(chunks).Some? then
              Reads(events + Ending(s).1, chunks,
                    match FinishChunk(chunks) case None => None case Some(k) => Some(FinalAt(chunks, k)), true)
            else events + Ending(s).1 == [MessageStop] && Read(false, NEW_CLIENT, [MessageStop]).None?
  {
    hide Matches, Calls, Spoken, TextOf, ToolsOf, Units, FinalSoFar, HeldSoFar, FinalAt, FinishChunk, Closing, HeadOf,
         Run, TerminalOf, Read, LeftOpen;
    EveryRunFollows(chunks);
    var (s, events) := Run(chunks);
    var c := Read(false, NEW_CLIENT, events).value;
    var units := Units(chunks);
    ClosingIsAccepted(false, s, c, units);
    SeenIsSlotted(s, c, units);
    HeldIsFinal(chunks);
    MatchesFacts(s, c, units);
    if HeadOf(chunks).Some? {
      ReadAppend(false, NEW_CLIENT, events, Closing(s));
      TerminalThenStop(s.(open := Nothing), c.(open := None), events + Closing(s));
      var e1 := TerminalOf(s.(open := Nothing)).1;
      assert events + (Closing(s) + e1 + [MessageStop]) == events + Closing(s) + (e1 + [MessageStop]);
    } else {
      EnvelopeAndBlocks(false, events);
      NothingToClose(s, c, units);
      ReadOne(false, NEW_CLIENT, MessageStop);
      assert [] + ([] + [] + [MessageStop]) == [MessageStop];
    }
  }

  lemma NothingToClose(s: State, c: Client, units: seq<Unit>)
    requires Matches(s, c, units) && !s.started
    ensures Closing(s) == [] && TerminalOf(s.(open := Nothing)).1 == []
  {
  }

  /** What a flush adds, and whether the client accepts it. */
  lemma FlushReads(s: State, c: Client, events: seq<ClaudeEvent>)
    requires Read(false, NEW_CLIENT, events) == Some(c) && !c.ended
    requires (s.sent <==> c.final.Some?) && (s.held != "" ==> !s.sent && c.open == None)
    requires s.held != "" || s.sent ==> c.head.Some?
    ensures var more := Flushing(s).1;
            if s.held == "" && !s.sent then more == []
            else
              && more != [] && more[|more| - 1] == MessageStop
              && Read(false, NEW_CLIENT, events + more) ==
                 if c.open.Some? then None
                 else Some(c.(ended := true, final := if s.held == "" then c.final
                           else Some(FinalOf(s.slots != map[], s.held, s.usage))))
  {
    hide Read, StopReason, ClaudeUsageOf, FinalOf;
    if s.held == "" && !s.sent {
    } else if c.open == None {
      TerminalThenStop(s, c, events);
    } else {
      assert [] + [MessageStop] == [MessageStop];
      ReadThen(false, NEW_CLIENT, events, MessageStop);
    }
  }

  /** A close without [DONE] adds nothing before a finish reason.  After one it
      delivers the terminal and ends the message, which the client accepts exactly
      when the upstream opened no block after the finish reason. */
  lemma FlushEndsTheFinished(chunks: seq<Chunk>)
    ensures var (s, events) := Run(chunks);
            match FinishChunk(chunks)
            case None => Flushing(s).1 == []
            case Some(k) =>
              && Flushing(s).1 != [] && Flushing(s).1[|Flushing(s).1| - 1] == MessageStop
              && (Read(false, NEW_CLIENT, events + Flushing(s).1).Some? <==> !LeftOpen(Units(chunks)))
              && (!LeftOpen(Units(chunks)) ==> Reads(events + Flushing(s).1, chunks, Some(FinalAt(chunks, k)), true))
  {
    hide Matches, Calls, Spoken, TextOf, ToolsOf, Units, FinalSoFar, HeldSoFar, FinalAt, FinishChunk, HeadOf, Run,
         LeftOpen, Read, Flushing;
    EveryRunFollows(chunks);
    var (s, events) := Run(chunks);
    var c := Read(false, NEW_CLIENT, events).value;
    var units := Units(chunks);
    SeenIsSlotted(s, c, units);
    HeldIsFinal(chunks);
    MatchesFacts(s, c, units);
    FlushReads(s, c, events);
  }

  lemma {:induction false} HeldIsFinal(chunks: seq<Chunk>)
    ensures var k := FinishChunk(chunks);
            && (HeldSoFar(chunks) == "" ==>
                FinalSoFar(chunks) == (match k case None => None case Some(k) => Some(FinalAt(chunks, k))))
            && (HeldSoFar(chunks) != "" ==>
                 (k.Some? && FinalSoFar(chunks).None?
                  && FinalAt(chunks, k.value)
                     == FinalOf(Seen(Units(chunks)) != [], HeldSoFar(chunks), LastUsage(chunks))))
  {
    match FinishChunk(chunks)
    case None =>
    case Some(k) => if k + 1 == |chunks| { assert chunks[..k + 1] == chunks; }
  }

  // ---- from bytes ----

  lemma RunSnoc(chunks: seq<Chunk>, last: Chunk)
    ensures var (s, events) := Run(chunks);
            var (s', more) := OnChunk(s, last);
            Run(chunks + [last]) == (s', events + more)
  {
    assert (chunks + [last])[..|chunks|] == chunks;
  }

  /** The converter's state and output over a buffer are those of the run over
      the chunks the buffer holds. */
  lemma {:induction false} BufferRuns(decode: Decoder, chunks: seq<Chunk>, buf: string)
    ensures var (s, events) := Run(chunks);
            var all, read := Consume(Lines(decode), true, s, false, buf),
                             Consume(Gather(decode), true, chunks, false, buf);
            var (s', events') := Run(read.state);
            && all.rest == read.rest && all.done == read.done && all.err == read.err
            && events + all.events == (if read.done then events' + Ending(s').1 else events')
            && (!read.done ==> all.state == s')
    decreases |buf|
  {
    hide OnChunk, Ending, Run, Classify, TrimCR, Consume;
    ConsumeLine(Lines(decode), true, Run(chunks).0, false, buf);
    ConsumeLine(Gather(decode), true, chunks, false, buf);
    var (s, events) := Run(chunks);
    match LineEnd(buf)
    case None =>
      assert events + [] == events;
    case Some(i) =>
      var line, rest := buf[..i], buf[i + 1..];
      assert Lines(decode)(s, line) == OnLine(decode, s, line);
      var step := OnLine(decode, s, line);
      match Classify(TrimCR(line))
      case Skip =>
        BufferRuns(decode, chunks, rest);
        var later := Consume(Lines(decode), true, s, false, rest);
        assert [] + later.events == later.events;
      case Done =>
      case Data(payload) =>
        match decode(payload)
        case Err(_) =>
          assert events + [] == events;
        case Ok(chunk) =>
          RunSnoc(chunks, chunk);
          BufferRuns(decode, chunks + [chunk], rest);
          var later := Consume(Lines(decode), true, step.state, false, rest);
          assert events + (step.events + later.events) == events + step.events + later.events;
  }

  /** However the network cuts a stream, its events are those of the chunks it holds. */
  lemma {:induction false} AnyChunkingRuns(decode: Decoder, pieces: seq<string>)
    ensures var out, read := FeedAll(Lines(decode), true, Initial(), "", pieces), Gathered(decode, Join(pieces));
            var (s, events) := Run(read.state);
            && out.done == read.done && out.err == read.err
            && out.events == (if read.done then events + Ending(s).1 else events)
            && (!out.Stopped() ==> out.state == s)
  {
    hide Run, Ending, Consume, FeedAll, OnLine, OnChunk;
    assert "" + Join(pieces) == Join(pieces);
    ChunkInvariance(Lines(decode), Initial(), "", pieces);
    RunNothing();
    BufferRuns(decode, [], Join(pieces));
    var all := Consume(Lines(decode), true, Initial(), false, Join(pieces));
    assert [] + all.events == all.events;
  }

  lemma RunNothing()
    ensures Run([]) == (Initial(), [])
  {
  }

  /** When it ended with [DONE], the client has read the whole message, if there
      was any. */
  lemma {:induction false} WholeStreamIsRead(decode: Decoder, pieces: seq<string>)
    ensures var out, read := FeedAll(Lines(decode), true, Initial(), "", pieces), Gathered(decode, Join(pieces));
            out.done && HeadOf(read.state).Some? ==>
              Reads(out.events, read.state,
                    match FinishChunk(read.state) case None => None case Some(k) => Some(FinalAt(read.state, k)), true)
  {
    hide Run, Ending, FinalAt, Reads, FeedAll, Gathered, FinishChunk;
    AnyChunkingRuns(decode, pieces);
    DoneEndsTheMessage(Gathered(decode, Join(pieces)).state);
  }
}
