/** Conversation history as Anthropic messages: blocks are grouped into messages
    whose roles alternate. */
module MessageOrder {
  import opened Basics
  import opened LineFeed

  /** data stands for the fields of blocks other than text. */
  datatype Block =
    | Text(text: string)
    | Image(data: string)
    | ToolUse(id: string, name: string, input: string)
    | ToolResult(callId: string, content: seq<Block>)
    | Thinking(text: string)

  datatype Content = Plain(text: string) | Blocks(blocks: seq<Block>)

  datatype Message = Message(role: string, content: Content)

  /** One call of the builder's add. */
  datatype Add = Add(key: string, role: string, block: Block)

  /** The keys in use: one for assistant blocks, two for user blocks. */
  predicate Keyed(a: Add) {
    (a.role == "assistant" && a.key == "assistant") || (a.role == "user" && a.key in {"user", "user:tool"})
  }

  // ---- the specification: maximal runs of one role ----

  datatype Group = Group(role: string, blocks: seq<Block>)

  /** A block joins the last group if it is said in the same role. */
  function Grown(groups: seq<Group>, a: Add): (r: seq<Group>)
    ensures r != [] && r[|r| - 1].role == a.role
  {
    var n := |groups| - 1;
    if groups != [] && groups[n].role == a.role then groups[..n] + [Group(a.role, groups[n].blocks + [a.block])]
    else groups + [Group(a.role, [a.block])]
  }

  function Groups(adds: seq<Add>): seq<Group> {
    if adds == [] then [] else Grown(Groups(adds[..|adds| - 1]), adds[|adds| - 1])
  }

  /** A lone text block is sent as a plain string. */
  function Rendered(g: Group): Message {
    if |g.blocks| == 1 && g.blocks[0].Text? then Message(g.role, Plain(g.blocks[0].text))
    else Message(g.role, Blocks(g.blocks))
  }

  function RenderedAll(groups: seq<Group>): (r: seq<Message>)
    ensures |r| == |groups| && forall k | 0 <= k < |r| :: r[k] == Rendered(groups[k])
  {
    seq(|groups|, k requires 0 <= k < |groups| => Rendered(groups[k]))
  }

  // ---- what it means ----

  function BlocksOf(c: Content): seq<Block> {
    match c
    case Plain(text) => [Text(text)]
    case Blocks(blocks) => blocks
  }

  /** All blocks of a conversation with the role they are said in, in order. */
  function Said(messages: seq<Message>): seq<(string, Block)> {
    if messages == [] then []
    else
      var last := messages[|messages| - 1];
      Said(messages[..|messages| - 1]) + Tagged(last.role, BlocksOf(last.content))
  }

  function Tagged(role: string, blocks: seq<Block>): (r: seq<(string, Block)>)
    ensures |r| == |blocks| && forall k | 0 <= k < |r| :: r[k] == (role, blocks[k])
  {
    seq(|blocks|, k requires 0 <= k < |blocks| => (role, blocks[k]))
  }

  function Added(adds: seq<Add>): (r: seq<(string, Block)>)
    ensures |r| == |adds| && forall k | 0 <= k < |r| :: r[k] == (adds[k].role, adds[k].block)
  {
    seq(|adds|, k requires 0 <= k < |adds| => (adds[k].role, adds[k].block))
  }

  function SaidIn(groups: seq<Group>): seq<(string, Block)> {
    if groups == [] then []
    else SaidIn(groups[..|groups| - 1]) + Tagged(groups[|groups| - 1].role, groups[|groups| - 1].blocks)
  }

  /** Rendering changes how a lone text is written, not what is said. */
  lemma {:induction false} RenderingSaysTheSame(groups: seq<Group>)
    ensures Said(RenderedAll(groups)) == SaidIn(groups)
    decreases |groups|
  {
    if groups != [] {
      var n := |groups| - 1;
      RenderingSaysTheSame(groups[..n]);
      assert RenderedAll(groups)[..n] == RenderedAll(groups[..n]);
      assert BlocksOf(Rendered(groups[n]).content) == groups[n].blocks;
    }
  }

  lemma GrowingSays(groups: seq<Group>, a: Add)
    ensures SaidIn(Grown(groups, a)) == SaidIn(groups) + [(a.role, a.block)]
  {
    var n := |groups| - 1;
    var after := Grown(groups, a);
    if groups != [] && groups[n].role == a.role {
      assert after[..n] == groups[..n];
      assert Tagged(a.role, groups[n].blocks + [a.block]) == Tagged(a.role, groups[n].blocks) + [(a.role, a.block)];
      assert SaidIn(groups[..n]) + (Tagged(a.role, groups[n].blocks) + [(a.role, a.block)]) ==
               SaidIn(groups) + [(a.role, a.block)];
    } else {
      assert after[..|groups|] == groups;
      assert Tagged(a.role, [a.block]) == [(a.role, a.block)];
    }
  }

  ghost predicate Alternates(groups: seq<Group>) {
    && (forall k | 0 <= k < |groups| - 1 :: groups[k].role != groups[k + 1].role)
    && (forall k | 0 <= k < |groups| :: groups[k].blocks != [])
  }

  lemma GrowingAlternates(groups: seq<Group>, a: Add)
    requires Alternates(groups)
    ensures Alternates(Grown(groups, a))
  {
  }

  lemma {:induction false} GroupsAlternate(adds: seq<Add>)
    ensures Alternates(Groups(adds)) && SaidIn(Groups(adds)) == Added(adds)
    decreases |adds|
  {
    if adds != [] {
      hide Alternates, SaidIn, Grown, Added;
      var init, a := adds[..|adds| - 1], adds[|adds| - 1];
      GroupsAlternate(init);
      GrowingSays(Groups(init), a);
      GrowingAlternates(Groups(init), a);
      AddedSnoc(adds);
    }
  }

  lemma AddedSnoc(adds: seq<Add>)
    requires adds != []
    ensures var n := |adds| - 1;
            Added(adds) == Added(adds[..n]) + [(adds[n].role, adds[n].block)]
  {
  }

  /** The messages say the blocks that were added, in order, never twice the same
      role in a row, and none says nothing. */
  lemma {:induction false} RolesAlternateAndNothingMoves(adds: seq<Add>)
    ensures var messages := RenderedAll(Groups(adds));
            && Said(messages) == Added(adds)
            && (forall k | 0 <= k < |messages| - 1 :: messages[k].role != messages[k + 1].role)
            && (forall k | 0 <= k < |messages| :: BlocksOf(messages[k].content) != [])
  {
    hide Groups, SaidIn, Said;
    GroupsAlternate(adds);
    RenderingSaysTheSame(Groups(adds));
  }

  // ---- the builder ----

  class MsgBuilder {
    var curKey: string
    var cur: Option<Group>
    var msgs: seq<Message>
    /** What was added so far, and the groups that are complete. */
    ghost var adds: seq<Add>
    ghost var complete: seq<Group>

    ghost predicate Valid()
      reads this
    {
      && msgs == RenderedAll(complete)
      && match cur
         case None => complete == [] && Groups(adds) == [] && curKey == ""
         case Some(g) => Groups(adds) == complete + [g] && KeyFits(curKey, g.role)
    }

    constructor ()
      ensures Valid() && adds == [] && cur == None
    {
      curKey, cur, msgs, adds, complete := "", None, [], [], [];
    }

    method Add(a: Add)
      requires Valid() && Keyed(a)
      modifies this
      ensures Valid() && adds == old(adds) + [a]
    {
      hide Groups, RenderedAll;
      ghost var before := complete;
      GroupsSnoc(adds, a);
      if cur.None? || (curKey != a.key && !(a.role == "user" && cur.value.role == "user")) {
        if cur.Some? {
          NewGroup(complete, cur.value, a);
          RenderedSnoc(complete, cur.value);
          complete := complete + [cur.value];
        }
        FlushCurrent();
        cur := Some(Group(a.role, [a.block]));
        curKey := a.key;
        adds := adds + [a];
        return;
      }
      SameGroup(complete, cur.value, a);
      cur := Some(Group(cur.value.role, cur.value.blocks + [a.block]));
      adds := adds + [a];
    }

    method AddAll(more: seq<Add>)
      requires Valid() && forall k | 0 <= k < |more| :: Keyed(more[k])
      modifies this
      ensures Valid() && adds == old(adds) + more
    {
      hide Valid, Keyed;
      assert adds + more[..0] == adds;
      for k := 0 to |more|
        invariant Valid() && adds == old(adds) + more[..k]
      {
        Add(more[k]);
        assert old(adds) + more[..k] + [more[k]] == old(adds) + more[..k + 1];
      }
      assert more[..|more|] == more;
    }

    method FlushCurrent()
      modifies this`cur, this`curKey, this`msgs
      ensures cur == None && (old(cur).None? ==> curKey == old(curKey)) && (old(cur).Some? ==> curKey == "")
      ensures msgs == if old(cur).Some? then old(msgs) + [Rendered(old(cur).value)] else old(msgs)
    {
      if cur.None? { return; }
      var blocks := cur.value.blocks;
      var content := Blocks(blocks);
      if |blocks| == 1 && blocks[0].Text? {
        content := Plain(blocks[0].text);
      }
      msgs := msgs + [Message(cur.value.role, content)];
      cur := None;
      curKey := "";
    }

    /** Ends the last message; the builder is done. */
    method Finish() returns (messages: seq<Message>)
      requires Valid()
      modifies this`cur, this`curKey, this`msgs
      ensures messages == msgs == RenderedAll(Groups(adds))
    {
      hide Groups, RenderedAll;
      if cur.Some? { RenderedSnoc(complete, cur.value); }
      FlushCurrent();
      messages := msgs;
    }
  }

  predicate KeyFits(key: string, role: string) {
    (role == "assistant" && key == "assistant") || (role == "user" && key in {"user", "user:tool"})
  }

  lemma GroupsSnoc(adds: seq<Add>, a: Add)
    ensures Groups(adds + [a]) == Grown(Groups(adds), a)
  {
    assert (adds + [a])[..|adds|] == adds;
  }

  lemma RenderedSnoc(groups: seq<Group>, g: Group)
    ensures RenderedAll(groups + [g]) == RenderedAll(groups) + [Rendered(g)]
  {
  }

  lemma NewGroup(complete: seq<Group>, g: Group, a: Add)
    requires g.role != a.role
    ensures Grown(complete + [g], a) == complete + [g] + [Group(a.role, [a.block])]
  {
  }

  lemma SameGroup(complete: seq<Group>, g: Group, a: Add)
    requires g.role == a.role
    ensures Grown(complete + [g], a) == complete + [Group(g.role, g.blocks + [a.block])]
  {
    assert (complete + [g])[..|complete|] == complete;
  }

  // ---- the two histories that are converted ----

  /** What one history entry contributes. */
  datatype Turn = Adds(adds: seq<Add>) | System(text: string) | Rejected(error: Failure)

  datatype ToolCall = ToolCall(id: string, name: string, input: Result<string, Failure>)

  /** A Chat Completions message; parts are its decoded content blocks. */
  datatype ChatMessage = ChatMessage(role: string, parts: Result<seq<Block>, Failure>, toolCalls: seq<ToolCall>,
                                     toolCallId: string)

  /** A Responses item; output is the decoded text and image sources. */
  datatype HistoryItem =
    | RoleItem(role: string, parts: Result<seq<Block>, Failure>)
    | CallItem(call: ToolCall)
    | OutputItem(callId: string, output: Result<(string, seq<Block>), Failure>)
    | ReasoningItem(summary: string)
    | OtherItem(kind: string)

  predicate HasImage(blocks: seq<Block>) {
    exists k | 0 <= k < |blocks| :: blocks[k].Image?
  }

  function JoinTexts(blocks: seq<Block>): string {
    if blocks == [] then ""
    else JoinTexts(blocks[..|blocks| - 1]) + match blocks[|blocks| - 1] case Text(t) => t case _ => ""
  }

  const SYSTEM_IMAGE := Failure("system messages cannot carry image content")
  const ASSISTANT_IMAGE := Failure("assistant messages cannot carry image content")

  function UserAdds(blocks: seq<Block>): (r: seq<Add>)
    ensures |r| == |blocks| && forall k | 0 <= k < |r| :: r[k] == Add("user", "user", blocks[k])
  {
    seq(|blocks|, k requires 0 <= k < |blocks| => Add("user", "user", blocks[k]))
  }

  function AssistantText(blocks: seq<Block>): seq<Add> {
    if JoinTexts(blocks) == "" then [] else [Add("assistant", "assistant", Text(JoinTexts(blocks)))]
  }

  /** The tool calls of an assistant message, up to the first malformed one. */
  function CallAdds(calls: seq<ToolCall>): Result<seq<Add>, Failure> {
    if calls == [] then Ok([])
    else
      match CallAdds(calls[..|calls| - 1])
      case Err(f) => Err(f)
      case Ok(adds) =>
        var tc := calls[|calls| - 1];
        match tc.input
        case Err(f) => Err(f)
        case Ok(input) => Ok(adds + [Add("assistant", "assistant", ToolUse(tc.id, tc.name, input))])
  }

  function OfChat(m: ChatMessage): Turn {
    if m.role !in {"system", "developer", "assistant", "tool", "user"} then Rejected(Failure("unsupported role"))
    else
      match m.parts
      case Err(f) => Rejected(f)
      case Ok(blocks) =>
        match m.role
        case "assistant" =>
          if HasImage(blocks) then Rejected(ASSISTANT_IMAGE)
          else (match CallAdds(m.toolCalls)
                case Err(f) => Rejected(f)
                case Ok(calls) => Adds(AssistantText(blocks) + calls))
        case "tool" =>
          Adds([Add("user:tool", "user",
                    ToolResult(m.toolCallId, if HasImage(blocks) then blocks else [Text(JoinTexts(blocks))]))])
        case "user" => Adds(UserAdds(blocks))
        case _ => if HasImage(blocks) then Rejected(SYSTEM_IMAGE) else System(JoinTexts(blocks))
  }

  function OfItem(item: HistoryItem): Turn {
    match item
    case RoleItem(role, parts) =>
      (match parts
       case Err(f) => Rejected(f)
       case Ok(blocks) =>
         if role == "user" then Adds(UserAdds(blocks))
         else if role == "assistant"
         then (if HasImage(blocks) then Rejected(ASSISTANT_IMAGE) else Adds(AssistantText(blocks)))
         else if role == "system" || role == "developer"
         then (if HasImage(blocks) then Rejected(SYSTEM_IMAGE) else System(JoinTexts(blocks)))
         else Rejected(Failure("unsupported role")))
    case CallItem(tc) =>
      (match tc.input
       case Err(f) => Rejected(f)
       case Ok(input) => Adds([Add("assistant", "assistant", ToolUse(tc.id, tc.name, input))]))
    case OutputItem(callId, output) =>
      (match output
       case Err(f) => Rejected(f)
       case Ok((text, images)) =>
         var content := if images == [] then [Text(text)] else (if text != "" then [Text(text)] else []) + images;
         Adds([Add("user:tool", "user", ToolResult(callId, content))]))
    case ReasoningItem(summary) => if summary == "" then Adds([])
      else Adds([Add("assistant", "assistant", Thinking(summary))])
    case OtherItem(_) => Rejected(Failure("unsupported input item type"))
  }

  /** All additions and system texts, up to the first rejected entry. */
  function Collected(turns: seq<Turn>): Result<(seq<Add>, seq<string>), Failure> {
    if turns == [] then Ok(([], []))
    else
      match Collected(turns[..|turns| - 1])
      case Err(f) => Err(f)
      case Ok((adds, system)) =>
        match turns[|turns| - 1]
        case Adds(more) => Ok((adds + more, system))
        case System(text) => Ok((adds, system + [text]))
        case Rejected(f) => Err(f)
  }

  predicate TurnKeyed(t: Turn) {
    t.Adds? ==> forall k | 0 <= k < |t.adds| :: Keyed(t.adds[k])
  }

  lemma {:induction false} CallAddsKeyed(calls: seq<ToolCall>)
    ensures CallAdds(calls).Ok? ==> forall k | 0 <= k < |CallAdds(calls).value| :: Keyed(CallAdds(calls).value[k])
    decreases |calls|
  {
    if calls != [] { CallAddsKeyed(calls[..|calls| - 1]); }
  }

  lemma ChatIsKeyed(m: ChatMessage)
    ensures TurnKeyed(OfChat(m))
  {
    CallAddsKeyed(m.toolCalls);
  }

  lemma ItemIsKeyed(item: HistoryItem)
    ensures TurnKeyed(OfItem(item))
  {
  }

  function Grouped(turns: seq<Turn>): Result<(seq<Message>, seq<string>), Failure> {
    match Collected(turns)
    case Err(f) => Err(f)
    case Ok((adds, system)) => Ok((RenderedAll(Groups(adds)), system))
  }

  /** The message loop of both conversions: the result groups what all entries
      added, or is the failure of the first rejected entry. */
  method Assemble(turns: seq<Turn>) returns (r: Result<(seq<Message>, seq<string>), Failure>)
    requires forall k | 0 <= k < |turns| :: TurnKeyed(turns[k])
    ensures r == Grouped(turns)
  {
    hide Groups, RenderedAll, Keyed;
    var b := new MsgBuilder();
    var system: seq<string> := [];
    for i := 0 to |turns|
      invariant b.Valid() && fresh(b) && Collected(turns[..i]) == Ok((b.adds, system))
    {
      assert turns[..i + 1][..i] == turns[..i];
      match turns[i]
      case Rejected(f) =>
        RejectionSticks(turns, i + 1);
        return Err(f);
      case System(text) => system := system + [text];
      case Adds(more) => b.AddAll(more);
    }
    assert turns[..|turns|] == turns;
    var messages := b.Finish();
    return Ok((messages, system));
  }

  lemma {:induction false} RejectionSticks(turns: seq<Turn>, n: nat)
    requires n <= |turns| && Collected(turns[..n]).Err?
    ensures Collected(turns) == Collected(turns[..n])
    decreases |turns| - n
  {
    if n == |turns| {
      assert turns[..n] == turns;
    } else {
      assert turns[..n + 1][..n] == turns[..n];
      RejectionSticks(turns, n + 1);
    }
  }

  // ---- whole histories ----

  function ChatTurns(messages: seq<ChatMessage>): (r: seq<Turn>)
    ensures |r| == |messages| && forall k | 0 <= k < |r| :: r[k] == OfChat(messages[k])
  {
    seq(|messages|, k requires 0 <= k < |messages| => OfChat(messages[k]))
  }

  /** The instructions, if there are any, are the first system text. */
  function ItemTurns(instructions: string, items: seq<HistoryItem>): (r: seq<Turn>)
    ensures var n := if instructions == "" then 0 else 1;
            |r| == n + |items| && (n == 1 ==> r[0] == System(instructions)) && forall k | 0 <= k < |items| ::
              r[n + k] == OfItem(items[k])
  {
    (if instructions == "" then [] else [System(instructions)]) +
      seq(|items|, k requires 0 <= k < |items| => OfItem(items[k]))
  }

  method FromChatCompletions(messages: seq<ChatMessage>) returns (r: Result<(seq<Message>, seq<string>), Failure>)
    ensures r == Grouped(ChatTurns(messages))
  {
    forall k | 0 <= k < |messages| ensures TurnKeyed(ChatTurns(messages)[k]) {
      ChatIsKeyed(messages[k]);
    }
    hide TurnKeyed, OfChat, Grouped;
    r := Assemble(ChatTurns(messages));
  }

  method FromResponses(instructions: string, items: seq<HistoryItem>)
    returns (r: Result<(seq<Message>, seq<string>), Failure>)
    ensures r == Grouped(ItemTurns(instructions, items))
  {
    var turns := ItemTurns(instructions, items);
    forall k | 0 <= k < |turns| ensures TurnKeyed(turns[k]) {
      var n := if instructions == "" then 0 else 1;
      if k >= n {
        assert turns[n + (k - n)] == OfItem(items[k - n]);
        ItemIsKeyed(items[k - n]);
      }
    }
    hide TurnKeyed, OfItem, Grouped, ItemTurns;
    r := Assemble(turns);
  }

  /** The blocks all entries contribute, with their roles, in order. */
  function SaidBy(turns: seq<Turn>): seq<(string, Block)> {
    if turns == [] then []
    else SaidBy(turns[..|turns| - 1]) + match turns[|turns| - 1] case Adds(more) => Added(more) case _ => []
  }

  function SystemBy(turns: seq<Turn>): seq<string> {
    if turns == [] then []
    else SystemBy(turns[..|turns| - 1]) + match turns[|turns| - 1] case System(text) => [text] case _ => []
  }

  lemma {:induction false} CollectedSays(turns: seq<Turn>)
    ensures match Collected(turns)
            case Err(f) => exists k :: 0 <= k < |turns| && turns[k] == Rejected(f) && forall j | 0 <= j < k ::
              !turns[j].Rejected?
            case Ok((adds, system)) =>
              (forall k | 0 <= k < |turns| :: !turns[k].Rejected?) && Added(adds) == SaidBy(turns)
              && system == SystemBy(turns)
    decreases |turns|
  {
    if turns != [] {
      var n := |turns| - 1;
      CollectedSays(turns[..n]);
      match Collected(turns[..n])
      case Err(f) =>
        var k :| 0 <= k < n && turns[..n][k] == Rejected(f) && forall j | 0 <= j < k :: !turns[..n][j].Rejected?;
        assert turns[k] == Rejected(f) && forall j | 0 <= j < k :: turns[j] == turns[..n][j];
      case Ok((adds, system)) =>
        assert forall j | 0 <= j < n :: turns[j] == turns[..n][j];
        if turns[n].Adds? { assert Added(adds + turns[n].adds) == Added(adds) + Added(turns[n].adds); }
    }
  }

  /** A converted history: all blocks its entries contribute, in order, in messages
      whose roles strictly alternate, and its system texts in order; or the failure
      of its first rejected entry. */
  lemma HistoryIsOrdered(turns: seq<Turn>)
    ensures match Grouped(turns)
            case Err(f) => exists k :: 0 <= k < |turns| && turns[k] == Rejected(f) && forall j | 0 <= j < k ::
              !turns[j].Rejected?
            case Ok((messages, system)) =>
              && (forall k | 0 <= k < |turns| :: !turns[k].Rejected?) && Said(messages) == SaidBy(turns)
              && system == SystemBy(turns)
              && (forall k | 0 <= k < |messages| - 1 :: messages[k].role != messages[k + 1].role)
              && (forall k | 0 <= k < |messages| :: BlocksOf(messages[k].content) != [])
  {
    hide Groups, RenderedAll, Said, SaidBy, SystemBy, Collected;
    CollectedSays(turns);
    match Collected(turns)
    case Err(_) =>
    case Ok((adds, _)) => RolesAlternateAndNothingMoves(adds);
  }

  predicate AllDecode(calls: seq<ToolCall>) {
    forall k | 0 <= k < |calls| :: calls[k].input.Ok?
  }

  /** The joined text of an assistant message, if it has any. */
  function TextSaid(blocks: seq<Block>): seq<(string, Block)> {
    if JoinTexts(blocks) == "" then [] else [("assistant", Text(JoinTexts(blocks)))]
  }

  function CallsSaid(calls: seq<ToolCall>): seq<(string, Block)>
    requires AllDecode(calls)
  {
    seq(|calls|, k requires 0 <= k < |calls| =>
      ("assistant", ToolUse(calls[k].id, calls[k].name, calls[k].input.value)))
  }

  /** What single entries contribute: a user message its parts, an assistant message
      its joined text and then its calls, a tool message one result. */
  lemma ChatMessageSays(m: ChatMessage)
    requires OfChat(m).Adds?
    ensures var said, blocks := Added(OfChat(m).adds), m.parts.value;
            match m.role
            case "user" => |said| == |blocks| && forall k | 0 <= k < |said| :: said[k] == ("user", blocks[k])
            case "tool" =>
              |said| == 1 && said[0].0 == "user" && said[0].1.ToolResult? && said[0].1.callId == m.toolCallId
              && said[0].1.content == if HasImage(blocks) then blocks else [Text(JoinTexts(blocks))]
            case _ => AllDecode(m.toolCalls) && said == TextSaid(blocks) + CallsSaid(m.toolCalls)
  {
    hide JoinTexts, HasImage, CallAdds, AssistantText, Added;
    if m.role == "assistant" {
      AssistantSays(m.parts.value, m.toolCalls);
    } else {
      UserSays(OfChat(m).adds);
    }
  }

  lemma UserSays(adds: seq<Add>)
    ensures |Added(adds)| == |adds| && forall k | 0 <= k < |adds| :: Added(adds)[k] == (adds[k].role, adds[k].block)
  {
  }

  lemma AssistantSays(blocks: seq<Block>, calls: seq<ToolCall>)
    requires CallAdds(calls).Ok?
    ensures AllDecode(calls)
    ensures Added(AssistantText(blocks) + CallAdds(calls).value) == TextSaid(blocks) + CallsSaid(calls)
  {
    CallAddsAre(calls);
    hide CallAdds;
    AddedAppend(AssistantText(blocks), CallAdds(calls).value);
    assert Added(AssistantText(blocks)) == TextSaid(blocks);
    hide JoinTexts;
    assert Added(CallAdds(calls).value) == CallsSaid(calls);
  }

  lemma AddedAppend(a: seq<Add>, b: seq<Add>)
    ensures Added(a + b) == Added(a) + Added(b)
  {
  }

  lemma {:induction false} CallAddsAre(calls: seq<ToolCall>)
    ensures CallAdds(calls).Ok? ==>
              var adds := CallAdds(calls).value;
              |adds| == |calls| && forall k | 0 <= k < |calls| ::
                calls[k].input.Ok? && adds[k].role == "assistant"
                && adds[k].block == ToolUse(calls[k].id, calls[k].name, calls[k].input.value)
    decreases |calls|
  {
    if calls != [] { CallAddsAre(calls[..|calls| - 1]); }
  }

  /** The same of a Responses item: what it says, in which role; a system item its text. */
  lemma HistoryItemSays(item: HistoryItem)
    requires !OfItem(item).Rejected?
    ensures OfItem(item).System? <==> item.RoleItem? && item.role in {"system", "developer"}
    ensures OfItem(item).System? ==> OfItem(item).text == JoinTexts(item.parts.value)
    ensures OfItem(item).Adds? ==>
              var said := Added(OfItem(item).adds);
              match item
              case RoleItem(role, parts) =>
                if role == "user" then said == Tagged("user", parts.value)
                else
                  var text := JoinTexts(parts.value);
                  role == "assistant" && said == if text == "" then [] else [("assistant", Text(text))]
              case CallItem(tc) => said == [("assistant", ToolUse(tc.id, tc.name, tc.input.value))]
              case OutputItem(callId, output) =>
                var (text, images) := output.value;
                && |said| == 1 && said[0].0 == "user" && said[0].1.ToolResult? && said[0].1.callId == callId
                && said[0].1.content ==
                     if images == [] then [Text(text)] else if text == "" then images else [Text(text)] + images
              case ReasoningItem(summary) => said == if summary == "" then [] else [("assistant", Thinking(summary))]
              case OtherItem(_) => false
  {
    hide JoinTexts, HasImage;
  }

  /** Texts are joined with nothing between them; other blocks have no text. */
  lemma {:induction false} TextsJoin(a: seq<Block>, b: seq<Block>, block: Block)
    ensures JoinTexts(a + b) == JoinTexts(a) + JoinTexts(b)
    ensures JoinTexts([block]) == if block.Text? then block.text else ""
    decreases |b|
  {
    assert [block][..0] == [];
    if b == [] {
      assert a + b == a;
    } else {
      assert (a + b)[..|a + b| - 1] == a + b[..|b| - 1];
      TextsJoin(a, b[..|b| - 1], block);
    }
  }

  predicate Carries(parts: Result<seq<Block>, Failure>) {
    parts.Ok? && exists k | 0 <= k < |parts.value| :: parts.value[k].Image?
  }

  /** Which entries are rejected: those that do not decode, those of an unknown role or
      kind, and images that are not the user's or a tool's. */
  lemma {:induction false} RejectedIff(m: ChatMessage, item: HistoryItem)
    ensures OfChat(m).Rejected? <==>
            || m.role !in {"user", "assistant", "tool", "system", "developer"} || m.parts.Err?
            || (m.role in {"assistant", "system", "developer"} && Carries(m.parts))
            || (m.role == "assistant" && exists k | 0 <= k < |m.toolCalls| :: m.toolCalls[k].input.Err?)
    ensures OfItem(item).Rejected? <==>
            match item
            case RoleItem(role, parts) =>
              || parts.Err? || role !in {"user", "assistant", "system", "developer"}
              || (role != "user" && Carries(parts))
            case CallItem(tc) => tc.input.Err?
            case OutputItem(_, output) => output.Err?
            case ReasoningItem(_) => false
            case OtherItem(_) => true
  {
    hide JoinTexts;
    CallsRejectedIff(m.toolCalls);
  }

  lemma {:induction false} CallsRejectedIff(calls: seq<ToolCall>)
    ensures CallAdds(calls).Err? <==> exists k | 0 <= k < |calls| :: calls[k].input.Err?
    decreases |calls|
  {
    if calls != [] {
      CallsRejectedIff(calls[..|calls| - 1]);
      assert calls == calls[..|calls| - 1] + [calls[|calls| - 1]];
    }
  }

  /** System entries become system texts. */
  lemma SystemSays(m: ChatMessage)
    ensures OfChat(m).System? <==> !OfChat(m).Rejected? && m.role in {"system", "developer"}
    ensures OfChat(m).System? ==> OfChat(m).text == JoinTexts(m.parts.value)
  {
    hide JoinTexts, HasImage;
  }

  /** The failure of an image that may not be there. */
  function NoImages(role: string): Failure {
    if role == "assistant" then Failure("assistant messages cannot carry image content")
    else Failure("system messages cannot carry image content")
  }

  /** What rejected messages fail with: an unknown role, what did not decode, or the
      image that may not be there; of a message's calls the first that did not decode. */
  lemma {:induction false} ChatRejectionSays(m: ChatMessage)
    requires OfChat(m).Rejected?
    ensures var f := OfChat(m).error;
            if m.role !in {"user", "assistant", "tool", "system", "developer"} then f == Failure("unsupported role")
            else if m.parts.Err? then f == m.parts.error
            else if Carries(m.parts) then f == NoImages(m.role)
            else FailsFirst(m.toolCalls, f)
  {
    hide JoinTexts, FailsFirst, CallAdds;
    CallsFailFirst(m.toolCalls);
  }

  /** And rejected items, likewise. */
  lemma {:induction false} ItemRejectionSays(item: HistoryItem)
    requires OfItem(item).Rejected?
    ensures var f := OfItem(item).error;
            match item
            case RoleItem(role, parts) =>
              if parts.Err? then f == parts.error
              else if role !in {"assistant", "system", "developer"} then f == Failure("unsupported role")
              else f == NoImages(role)
            case CallItem(tc) => tc.input == Err(f)
            case OutputItem(_, output) => output == Err(f)
            case ReasoningItem(_) => false
            case OtherItem(_) => f == Failure("unsupported input item type")
  {
    hide JoinTexts, HasImage;
  }

  ghost predicate FailsFirst(calls: seq<ToolCall>, f: Failure) {
    exists k :: 0 <= k < |calls| && calls[k].input == Err(f) && forall j | 0 <= j < k :: calls[j].input.Ok?
  }

  lemma {:induction false} CallsFailFirst(calls: seq<ToolCall>)
    ensures CallAdds(calls).Err? ==> FailsFirst(calls, CallAdds(calls).error)
    ensures CallAdds(calls).Ok? ==> forall j | 0 <= j < |calls| :: calls[j].input.Ok?
    decreases |calls|
  {
    if calls != [] {
      var n := |calls| - 1;
      CallsFailFirst(calls[..n]);
      assert forall j | 0 <= j < n :: calls[..n][j] == calls[j];
      if CallAdds(calls[..n]).Err? {
        var k :| 0 <= k < n && calls[..n][k].input == Err(CallAdds(calls[..n]).error)
                 && forall j | 0 <= j < k :: calls[..n][j].input.Ok?;
        assert calls[k].input == Err(CallAdds(calls).error);
      }
    }
  }
}
