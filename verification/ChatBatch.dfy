/** A complete Chat Completions response converted to a Messages result at once,
    and the agreement of that with converting a stream of it. */
module ChatBatch {
  import opened Basics
  import opened Wire
  import opened LineFeed
  import opened ChatChunks
  import opened ChatUnits
  import opened ClaudeClient
  import opened ChatToClaude
  import opened ChatClaudeMeaning

  datatype BatchCall = BatchCall(id: string, name: string, arguments: string)

  /** texts are the decoded text parts of the content. */
  datatype BatchResponse = BatchResponse(id: string, model: string, texts: seq<string>, calls: seq<BatchCall>,
                                         finish: string, usage: Option<Usage>)

  datatype ToolUse = ToolUse(id: string, name: string, input: string)

  datatype ClaudeResult = ClaudeResult(id: string, model: string, stop: string, usage: ClaudeUsage, texts: seq<string>,
                                       tools: seq<ToolUse>)

  /** Decodes one arguments string; blank ones stand for an empty object. */
  type Parser = string -> Result<string, Failure>

  function ToolUses(parse: Parser, calls: seq<BatchCall>): Result<seq<ToolUse>, Failure> {
    if calls == [] then Ok([])
    else
      match ToolUses(parse, calls[..|calls| - 1])
      case Err(f) => Err(f)
      case Ok(tools) =>
        var tc := calls[|calls| - 1];
        match parse(DefaultArgs(tc.arguments))
        case Err(f) => Err(f)
        case Ok(input) => Ok(tools + [ToolUse(tc.id, tc.name, input)])
  }

  method ClaudeToolUseBlocks(parse: Parser, calls: seq<BatchCall>) returns (r: Result<seq<ToolUse>, Failure>)
    ensures r == ToolUses(parse, calls)
  {
    var blocks: seq<ToolUse> := [];
    for k := 0 to |calls|
      invariant ToolUses(parse, calls[..k]) == Ok(blocks)
    {
      assert calls[..k + 1][..k] == calls[..k];
      match parse(DefaultArgs(calls[k].arguments))
      case Err(f) =>
        FailureSticks(parse, calls, k + 1);
        return Err(f);
      case Ok(input) => blocks := blocks + [ToolUse(calls[k].id, calls[k].name, input)];
    }
    assert calls[..|calls|] == calls;
    return Ok(blocks);
  }

  lemma {:induction false} FailureSticks(parse: Parser, calls: seq<BatchCall>, n: nat)
    requires n <= |calls| && ToolUses(parse, calls[..n]).Err?
    ensures ToolUses(parse, calls) == ToolUses(parse, calls[..n])
    decreases |calls| - n
  {
    if n == |calls| {
      assert calls[..n] == calls;
    } else {
      assert calls[..n + 1][..n] == calls[..n];
      FailureSticks(parse, calls, n + 1);
    }
  }

  function ChatToClaudeResult(parse: Parser, resp: BatchResponse): Result<ClaudeResult, Failure> {
    match ToolUses(parse, resp.calls)
    case Err(f) => Err(f)
    case Ok(tools) =>
      Ok(ClaudeResult(resp.id, resp.model, StopReason(resp.calls != [], resp.finish), ClaudeUsageOf(resp.usage),
                      resp.texts, tools))
  }

  /** The chunks say the response: its text and calls, any fragments, any
      interleaving, its finish reason after the first call if there is one, and its
      usage by the chunk after the finish reason. */
  ghost predicate Spells(chunks: seq<Chunk>, resp: BatchResponse) {
    && Spoken(Units(chunks)) == Concat(resp.texts)
    && |Calls(Units(chunks))| == |resp.calls|
    && (forall k | 0 <= k < |resp.calls| ::
          Calls(Units(chunks))[k] == ToolBlock(resp.calls[k].id, resp.calls[k].name, resp.calls[k].arguments))
    && HeadOf(chunks).Some? && HeadOf(chunks).value.id == resp.id && HeadOf(chunks).value.model == resp.model
    && FinishChunk(chunks).Some?
    && var k := FinishChunk(chunks).value;
    && chunks[k].choices[0].finish == resp.finish
    && (Seen(Units(chunks[..k + 1])) != [] <==> resp.calls != [])
    && LastUsage(if k + 2 <= |chunks| then chunks[..k + 2] else chunks) == resp.usage
  }

  /** The tool blocks a client read are the calls of the result, once the client
      decodes their arguments. */
  ghost predicate SameTools(parse: Parser, blocks: seq<Block>, tools: seq<ToolUse>) {
    |blocks| == |tools| && forall k | 0 <= k < |tools| ::
      && blocks[k].ToolBlock? && blocks[k].id == tools[k].id && blocks[k].name == tools[k].name
      && parse(DefaultArgs(blocks[k].json)) == Ok(tools[k].input)
  }

  lemma {:induction false} ToolUsesAre(parse: Parser, calls: seq<BatchCall>)
    requires ToolUses(parse, calls).Ok?
    ensures var tools := ToolUses(parse, calls).value;
            |tools| == |calls| && forall k | 0 <= k < |calls| ::
              && tools[k].id == calls[k].id && tools[k].name == calls[k].name
              && parse(DefaultArgs(calls[k].arguments)) == Ok(tools[k].input)
    decreases |calls|
  {
    hide DefaultArgs;
    if calls != [] { ToolUsesAre(parse, calls[..|calls| - 1]); }
  }

  /** A client that reads a stream of the response has what converting the response
      at once gives: identity, joined text, tools, stop reason and usage. */
  lemma {:induction false} StreamAgreesWithBatch(parse: Parser, resp: BatchResponse, chunks: seq<Chunk>)
    requires Spells(chunks, resp) && ToolUses(parse, resp.calls).Ok?
    ensures var (s, events) := Run(chunks);
            var c := Read(false, NEW_CLIENT, events + Ending(s).1);
            var batch := ChatToClaudeResult(parse, resp);
            && c.Some? && c.value.ended && batch.Ok?
            && c.value.head.Some? && c.value.head.value.id == batch.value.id
            && c.value.head.value.model == batch.value.model
            && TextOf(c.value.blocks) == Concat(batch.value.texts)
            && SameTools(parse, ToolsOf(c.value.blocks), batch.value.tools)
            && c.value.final == Some(Final(batch.value.stop, batch.value.usage))
  {
    FinalIs(resp.calls != [], resp.finish, resp.usage);
    hide Run, Ending, Read, Units, Spoken, Calls, HeadOf, FinishChunk, Seen, LastUsage, StopReason, ClaudeUsageOf,
         FinalOf, DefaultArgs;
    DoneEndsTheMessage(chunks);
    ToolUsesAre(parse, resp.calls);
  }

  /** The client's input tokens and cached tokens add up to the prompt exactly when
      no more tokens were cached than the prompt has. */
  lemma InputAndCacheMakeThePromptIff(u: Usage)
    requires u.cached.Some?
    ensures var c := ClaudeUsageOf(Some(u));
            && c.output == u.completion && c.cacheRead == u.cached
            && (c.input + u.cached.value == u.prompt <==> u.cached.value <= u.prompt)
  {
  }
}
