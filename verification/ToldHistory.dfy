/** What a Responses history tells a Chat Completions upstream, message by message. */
module ToldHistory {
  import opened Basics
  import opened LineFeed
  import opened ChatHistory

  // ---- one item, in words ----

  predicate BlankArguments(args: string) {
    TrimSpace(args) in {"", "null"}
  }

  function TextOf(parts: seq<Part>): string {
    if parts == [] then ""
    else TextOf(parts[..|parts| - 1]) + match parts[|parts| - 1] case TextPart(t) => t case ImagePart(_) => ""
  }

  predicate HasImage(parts: seq<Part>) {
    exists k | 0 <= k < |parts| :: parts[k].ImagePart?
  }

  predicate IsSystem(role: string) {
    role == "system" || role == "developer"
  }

  /** A system message is its text; other messages keep role and content, and what has
      no content is not said; a call is said with an object for arguments. */
  function Words(item: Item): seq<ChatMessage> {
    match item
    case MessageItem(role, Ok(Some(content))) =>
      if !IsSystem(role) then [Said(role, content)]
      else
        var text := match content case Plain(t) => t case Parts(parts) => TextOf(parts);
        if text == "" then [] else [System(text)]
    case CallItem(callId, name, arguments) =>
      [Calls([ToolCall(callId, name, if BlankArguments(arguments) then "{}" else arguments)])]
    case OutputItem(callId, Ok((text, _))) => [ToolReply(callId, text)]
    case _ => []
  }

  /** Why an item cannot be told: its content does not decode, its role or kind is
      unknown, or it is an image in a system message. */
  function Obstacle(item: Item): Option<Failure> {
    match item
    case MessageItem(role, Err(f)) => Some(f)
    case MessageItem(role, Ok(content)) =>
      if !IsSystem(role) && role != "user" && role != "assistant" then Some(Failure("unsupported role"))
      else if IsSystem(role) && content.Some? && content.value.Parts? && HasImage(content.value.parts)
      then Some(Failure("system messages cannot carry image content"))
      else None
    case OutputItem(_, Err(f)) => Some(f)
    case OtherItem(_) => Some(Failure("unsupported input item type"))
    case _ => None
  }

  /** The images of a tool output, behind a line that names its call. */
  function Labelled(item: Item): seq<Part> {
    match item
    case OutputItem(callId, Ok((_, urls))) =>
      var images := seq(|urls|, k requires 0 <= k < |urls| => ImagePart(urls[k]));
      if urls == [] then [] else [TextPart("Images returned by tool call " + callId + ":")] + images
    case _ => []
  }

  /** The history told item by item; images wait until something other than a tool
      output or reasoning comes, and are then said by the user at once. */
  function Told(waiting: seq<Part>, items: seq<Item>): seq<ChatMessage>
    decreases |items|
  {
    var shown := if waiting == [] then [] else [Said("user", Parts(waiting))];
    if items == [] then shown
    else if items[0].OutputItem? || items[0].ReasoningItem? then
      Words(items[0]) + Told(waiting + Labelled(items[0]), items[1..])
    else shown + Words(items[0]) + Told([], items[1..])
  }

  /** A conversation with every call said on its own. */
  function Utterances(ms: seq<ChatMessage>): seq<ChatMessage> {
    if ms == [] then [] else Utterances(ms[..|ms| - 1]) + Spoken(ms[|ms| - 1])
  }

  function Spoken(m: ChatMessage): seq<ChatMessage> {
    match m
    case Calls(calls) => seq(|calls|, k requires 0 <= k < |calls| => Calls([calls[k]]))
    case _ => [m]
  }

  // ---- single items ----

  lemma {:induction false} JoinedIs(parts: seq<Part>)
    ensures JoinTextParts(parts) == if HasImage(parts) then None else Some(TextOf(parts))
    decreases |parts|
  {
    if parts != [] {
      var init, last := parts[..|parts| - 1], parts[|parts| - 1];
      JoinedIs(init);
      assert parts == init + [last];
      assert HasImage(parts) <==> HasImage(init) || last.ImagePart?;
    }
  }

  lemma EmissionIs(item: Item)
    requires !InRun(item)
    ensures Emission(item) == if Obstacle(item).Some? then Err(Obstacle(item).value) else Ok(Words(item))
  {
    hide JoinTextParts, TextOf, TrimSpace;
    match item
    case MessageItem(role, Ok(Some(Parts(parts)))) => JoinedIs(parts);
    case _ =>
  }

  // ---- whole histories ----

  ghost predicate FirstObstacle(items: seq<Item>, f: Failure) {
    exists k :: 0 <= k < |items| && Obstacle(items[k]) == Some(f) && forall j | 0 <= j < k :: Obstacle(items[j]).None?
  }

  ghost predicate Clear(items: seq<Item>) {
    forall k | 0 <= k < |items| :: Obstacle(items[k]).None?
  }

  /** The result is what is told, or the first obstacle. */
  ghost predicate TellsOr(r: Result<seq<ChatMessage>, Failure>, told: seq<ChatMessage>, items: seq<Item>) {
    match r
    case Err(f) => FirstObstacle(items, f)
    case Ok(ms) => Clear(items) && ms == told
  }

  lemma ClearFrom(items: seq<Item>)
    requires items != []
    ensures Clear(items) <==> Obstacle(items[0]).None? && Clear(items[1..])
  {
    hide Obstacle;
    assert forall k | 0 < k < |items| :: items[k] == items[1..][k - 1];
  }

  lemma ObstacleFrom(items: seq<Item>, f: Failure)
    requires items != []
    requires Obstacle(items[0]) == Some(f) || (Obstacle(items[0]).None? && FirstObstacle(items[1..], f))
    ensures FirstObstacle(items, f)
  {
    hide Obstacle;
    if Obstacle(items[0]).None? {
      var k :| 0 <= k < |items[1..]| && Obstacle(items[1..][k]) == Some(f)
               && forall j | 0 <= j < k :: Obstacle(items[1..][j]).None?;
      assert Obstacle(items[k + 1]) == Some(f);
      forall j | 0 <= j < k + 1 ensures Obstacle(items[j]).None? {
        if j > 0 { assert items[j] == items[1..][j - 1]; }
      }
    }
  }

  lemma {:induction false} RestIsTold(waiting: seq<Part>, items: seq<Item>)
    ensures TellsOr(Rest(waiting, items), Told(waiting, items), items)
    decreases |items|
  {
    hide Rest, Emission, Clear, FirstObstacle, Labelled, Words;
    if items == [] {
      NothingLeft(waiting);
      NothingStands();
    } else {
      ClearFrom(items);
      if InRun(items[0]) {
        RestOfOutput(waiting, items);
        RestIsTold(waiting + Labelled(items[0]), items[1..]);
        InRunIs(items[0], waiting);
      } else {
        RestOfOther(waiting, items);
        EmissionIs(items[0]);
        RestIsTold([], items[1..]);
        var shown := ImageMessage(waiting);
        Regroup(shown, Words(items[0]), Told([], items[1..]));
      }
      if Rest(waiting, items).Err? { ObstacleFrom(items, Rest(waiting, items).error); }
    }
  }

  lemma InRunIs(item: Item, waiting: seq<Part>)
    requires InRun(item)
    ensures match item
            case OutputItem(callId, output) =>
              (match output
               case Err(f) => Obstacle(item) == Some(f)
               case Ok((text, urls)) =>
                 && Obstacle(item).None? && Words(item) == [ToolReply(callId, text)]
                 && ImageParts(callId, urls) == Labelled(item))
            case _ =>
              Obstacle(item).None? && Words(item) == [] && waiting + Labelled(item) == waiting
  {
  }

  lemma NothingStands()
    ensures Clear([])
  {
  }

  // ---- merged calls ----

  lemma {:induction false} UtterancesAppend(a: seq<ChatMessage>, b: seq<ChatMessage>)
    ensures Utterances(a + b) == Utterances(a) + Utterances(b)
    decreases |b|
  {
    hide Spoken;
    if b == [] {
      assert a + b == a && Utterances(a) + [] == Utterances(a);
    } else {
      var n := |b| - 1;
      assert (a + b)[..|a| + n] == a + b[..n] && (a + b)[|a| + n] == b[n];
      UtterancesAppend(a, b[..n]);
      Regroup(Utterances(a), Utterances(b[..n]), Spoken(b[n]));
    }
  }

  lemma UtteranceOf(m: ChatMessage)
    ensures Utterances([m]) == Spoken(m)
  {
    assert [m][..0] == [];
    assert [] + Spoken(m) == Spoken(m);
  }

  lemma BothSpoken(a: seq<ToolCall>, b: seq<ToolCall>)
    ensures Spoken(Calls(a + b)) == Spoken(Calls(a)) + Spoken(Calls(b))
  {
  }

  lemma MergingOneUtters(out: seq<ChatMessage>, m: ChatMessage)
    ensures Utterances(MergeOnto(out, m)) == Utterances(out) + Spoken(m)
  {
    var n := |out| - 1;
    if m.Calls? && out != [] && out[n].Calls? {
      var both := Calls(out[n].calls + m.calls);
      BothSpoken(out[n].calls, m.calls);
      hide Spoken;
      assert out[n := both][..n] == out[..n];
      Regroup(Utterances(out[..n]), Spoken(out[n]), Spoken(m));
    } else {
      UtterancesAppend(out, [m]);
      UtteranceOf(m);
    }
  }

  lemma {:induction false} MergingUtters(out: seq<ChatMessage>, ms: seq<ChatMessage>)
    ensures Utterances(MergeAll(out, ms)) == Utterances(out) + Utterances(ms)
    decreases |ms|
  {
    hide Utterances, Spoken, MergeOnto;
    if ms == [] {
      NothingUttered();
      assert Utterances(out) + [] == Utterances(out);
    } else {
      MergingOneUtters(out, ms[0]);
      MergingUtters(MergeOnto(out, ms[0]), ms[1..]);
      UtterancesAppend([ms[0]], ms[1..]);
      UtteranceOf(ms[0]);
      assert [ms[0]] + ms[1..] == ms;
      Regroup(Utterances(out), Spoken(ms[0]), Utterances(ms[1..]));
    }
  }

  lemma NothingUttered()
    ensures Utterances([]) == []
  {
  }

  /** Calls that follow each other share a message. */
  ghost predicate CallsShare(ms: seq<ChatMessage>) {
    forall k | 0 <= k < |ms| - 1 :: !(ms[k].Calls? && ms[k + 1].Calls?)
  }

  lemma {:induction false} MergingShares(out: seq<ChatMessage>, ms: seq<ChatMessage>)
    requires CallsShare(out)
    ensures CallsShare(MergeAll(out, ms))
    decreases |ms|
  {
    if ms != [] { MergingShares(MergeOnto(out, ms[0]), ms[1..]); }
  }

  /** What is told says each call on its own. */
  ghost predicate Single(ms: seq<ChatMessage>) {
    forall k | 0 <= k < |ms| :: ms[k].Calls? ==> |ms[k].calls| == 1
  }

  lemma {:induction false} SingleUtters(ms: seq<ChatMessage>)
    requires Single(ms)
    ensures Utterances(ms) == ms
    decreases |ms|
  {
    if ms != [] {
      var n := |ms| - 1;
      SingleUtters(ms[..n]);
      if ms[n].Calls? { assert ms[n].calls == [ms[n].calls[0]]; }
      assert Spoken(ms[n]) == [ms[n]];
    }
  }

  lemma {:induction false} ToldIsSingle(waiting: seq<Part>, items: seq<Item>)
    ensures Single(Told(waiting, items))
    decreases |items|
  {
    hide TextOf, TrimSpace, Labelled;
    if items != [] {
      ToldIsSingle(waiting + Labelled(items[0]), items[1..]);
      ToldIsSingle([], items[1..]);
    }
  }

  /** The first item that cannot be told is why; or the instructions and the items are
      told one by one, each in its words. */
  ghost predicate TellsHistory(r: Result<seq<ChatMessage>, Failure>, instructions: string, items: seq<Item>) {
    match r
    case Err(f) => FirstObstacle(items, f)
    case Ok(ms) =>
      && Clear(items)
      && Utterances(ms) == (if instructions == "" then [] else [System(instructions)]) + Told([], items)
  }

  /** The converted history tells its instructions and its items, with adjacent calls
      in one message, or fails with the first item that cannot be told. */
  lemma HistoryIsTold(instructions: string, items: seq<Item>)
    ensures var r := Merged(SystemMessage(instructions), ByRuns(items));
            TellsHistory(r, instructions, items) && (r.Ok? ==> CallsShare(r.value))
  {
    hide ByRuns, MergeAll, Utterances, Told, FirstObstacle, Clear;
    RestIsByRuns(items);
    RestIsTold([], items);
    var start := SystemMessage(instructions);
    SingleUtters(start);
    if ByRuns(items).Ok? {
      MergingUtters(start, ByRuns(items).value);
      MergingShares(start, ByRuns(items).value);
      ToldIsSingle([], items);
      SingleUtters(ByRuns(items).value);
    }
  }
}
