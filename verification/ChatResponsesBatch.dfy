/** A complete Chat Completions response converted to a Responses result at once, and
    how far that agrees with converting a stream of it. */
module ChatResponsesBatch {
  import opened Basics
  import opened ResponseTools
  import opened Wire
  import opened LineFeed
  import opened ResponsesTurn
  import opened TurnPieces
  import opened OutputAssembly
  import opened StreamedInputs
  import opened ChatChunks
  import opened ChatBatch
  import opened MessagesBatch
  import C2R = ChatToResponses
  import Chat = ChatMeaning

  datatype Part = Part(kind: string, text: string)

  datatype ChatResponse = ChatResponse(id: string, model: string, parts: seq<Part>, calls: seq<BatchCall>,
                                       finish: string, usage: Option<Usage>)

  // ---- the specification ----

  /** The joined text, or the kind of the first part that is none. */
  function PartsText(parts: seq<Part>): Result<string, string> {
    if parts == [] then Ok("")
    else
      match PartsText(parts[..|parts| - 1])
      case Err(kind) => Err(kind)
      case Ok(text) =>
        var last := parts[|parts| - 1];
        if last.kind == "text" then Ok(text + last.text) else Err(last.kind)
  }

  function CallItem(names: ToolNames, call: BatchCall): OutItem {
    Call(RenderedCall(names, call.id, call.name, DefaultArgs(call.arguments)))
  }

  /** The message leads, and only if there is text. */
  function BatchOutput(names: ToolNames, id: string, text: string, calls: seq<BatchCall>): seq<OutItem> {
    (if text == "" then [] else [Message(id, [text])]) +
    seq(|calls|, k requires 0 <= k < |calls| => CallItem(names, calls[k]))
  }

  function ChatResult(names: ToolNames, resp: ChatResponse): Result<ResponsesResult, Failure> {
    match PartsText(resp.parts)
    case Err(kind) => Err(Unrepresentable(kind))
    case Ok(text) =>
      Ok(ResponsesResult(resp.id, resp.model, ResponseStatusFromFinish(resp.finish),
                         BatchOutput(names, resp.id, text, resp.calls), C2R.UsageOf(resp.usage)))
  }

  // ---- the conversion ----

  method ChatToResponses(names: ToolNames, resp: ChatResponse) returns (r: Result<ResponsesResult, Failure>)
    ensures r == ChatResult(names, resp)
  {
    hide RenderedCall, DefaultArgs, ResponseStatusFromFinish, C2R.UsageOf, BatchOutput, PartsText;
    NoParts();
    var oa := new OutputAssembler(resp.id, names);
    var parts, calls := resp.parts, resp.calls;
    for k := 0 to |parts|
      invariant oa.Valid() && oa.items == [] && PartsText(parts[..k]) == Ok(oa.text)
    {
      PartsSnoc(parts, k);
      if parts[k].kind != "text" {
        WrongPartSticks(parts, k + 1);
        return Err(Unrepresentable(parts[k].kind));
      }
      oa.AddText(parts[k].text);
    }
    assert parts[..|parts|] == parts;
    for k := 0 to |calls|
      invariant oa.Valid() && oa.textSlot < 0 && PartsText(parts) == Ok(oa.text) && |oa.items| == k
      invariant forall j | 0 <= j < k :: oa.items[j] == Some(CallItem(names, calls[j]))
    {
      oa.AppendFunctionCall(calls[k].id, calls[k].name, DefaultArgs(calls[k].arguments));
    }
    ghost var items := oa.items;
    var output := oa.Render();
    OutputIsBatch(names, resp.id, oa.text, calls, items, output);
    return Ok(ResponsesResult(resp.id, resp.model, ResponseStatusFromFinish(resp.finish), output,
                              C2R.UsageOf(resp.usage)));
  }

  lemma NoParts()
    ensures PartsText([]) == Ok("")
  {
  }

  lemma PartsSnoc(parts: seq<Part>, k: nat)
    requires k < |parts| && PartsText(parts[..k]).Ok?
    ensures PartsText(parts[..k + 1]) ==
            if parts[k].kind == "text" then Ok(PartsText(parts[..k]).value + parts[k].text) else Err(parts[k].kind)
  {
    assert parts[..k + 1][..k] == parts[..k];
  }

  lemma OutputIsBatch(names: ToolNames, id: string, text: string, calls: seq<BatchCall>, items: seq<Option<OutItem>>,
                      output: seq<OutItem>)
    requires |items| == |calls| && forall k | 0 <= k < |calls| :: items[k] == Some(CallItem(names, calls[k]))
    requires var lead := if text != "" then [Message(id, [text])] else [];
             && |output| == |lead| + |items| && lead <= output
             && forall k | 0 <= k < |items| :: Some(output[|lead| + k]) == items[k]
    ensures output == BatchOutput(names, id, text, calls)
  {
    hide CallItem;
    var lead := if text != "" then [Message(id, [text])] else [];
    var batch := BatchOutput(names, id, text, calls);
    forall p | 0 <= p < |output| ensures output[p] == batch[p] {
      if p >= |lead| { assert Some(output[|lead| + (p - |lead|)]) == items[p - |lead|]; }
    }
  }

  lemma {:induction false} WrongPartSticks(parts: seq<Part>, n: nat)
    requires n <= |parts| && PartsText(parts[..n]).Err?
    ensures PartsText(parts) == PartsText(parts[..n])
    decreases |parts| - n
  {
    if n == |parts| {
      assert parts[..n] == parts;
    } else {
      assert parts[..n + 1][..n] == parts[..n];
      WrongPartSticks(parts, n + 1);
    }
  }

  // ---- the output of a stream, by what its pieces say ----

  function SaidText(pieces: seq<Piece>): string {
    if pieces == [] then ""
    else SaidText(pieces[..|pieces| - 1]) + match pieces[|pieces| - 1] case Say(text) => text case _ => ""
  }

  lemma {:induction false} SaidAppend(a: seq<Piece>, b: seq<Piece>)
    ensures SaidText(a + b) == SaidText(a) + SaidText(b)
    decreases |b|
  {
    hide SaidText;
    if b == [] {
      NothingSaid();
      assert a + b == a && SaidText(a) + "" == SaidText(a);
    } else {
      var init, last := b[..|b| - 1], b[|b| - 1];
      SaidAppend(a, init);
      SaidSnoc(a + init, last);
      SaidSnoc(init, last);
      assert a + b == a + init + [last] && b == init + [last];
      var more := match last case Say(text) => text case _ => "";
      assert SaidText(a) + (SaidText(init) + more) == SaidText(a) + SaidText(init) + more;
    }
  }

  lemma NothingSaid()
    ensures SaidText([]) == ""
  {
  }

  lemma SaidSnoc(pieces: seq<Piece>, last: Piece)
    ensures SaidText(pieces + [last]) == SaidText(pieces) + match last case Say(text) => text case _ => ""
  {
    assert (pieces + [last])[..|pieces|] == pieces;
  }

  lemma {:induction false} PlaySays(names: ToolNames, id: string, pieces: seq<Piece>)
    ensures var t := Play(names, NewTurn(id), pieces).0;
            t.id == id && t.text == SaidText(pieces)
            && forall p | 0 <= p < |t.items| && t.items[p].Text? :: p == t.textPos
    decreases |pieces|
  {
    hide ToolDelta, CallAdded;
    if pieces != [] {
      PlaySays(names, id, pieces[..|pieces| - 1]);
    }
  }

  lemma {:induction false} BegunIsSlotted(pieces: seq<Piece>)
    ensures TextSlot(pieces) >= 0 <==> BeginText in pieces
    decreases |pieces|
  {
    if pieces != [] {
      BegunIsSlotted(pieces[..|pieces| - 1]);
      assert pieces == pieces[..|pieces| - 1] + [pieces[|pieces| - 1]];
    }
  }

  /** The stream says these calls. */
  ghost predicate SaysCalls(pieces: seq<Piece>, calls: seq<BatchCall>) {
    && |Starts(pieces)| == |calls|
    && forall k | 0 <= k < |calls| ::
         Starts(pieces)[k] == (calls[k].id, calls[k].name) && Joined(pieces, k) == calls[k].arguments
  }

  /** The message and the calls of the stream's output, in their places. */
  lemma OutputItems(names: ToolNames, id: string, pieces: seq<Piece>, calls: seq<BatchCall>)
    requires SaysCalls(pieces, calls)
    ensures var output, slot := Output(names, Play(names, NewTurn(id), pieces).0), TextSlot(pieces);
            && slot <= |calls| && |output| == |calls| + (if slot >= 0 then 1 else 0)
            && (slot >= 0 ==> output[slot] == Message(id, [SaidText(pieces)]))
            && forall k | 0 <= k < |calls| ::
                 Place(slot, k) < |output| && output[Place(slot, k)] == CallItem(names, calls[k])
  {
    hide Play, Starts, Joined, TextSlot, SaidText, RenderedCall, DefaultArgs;
    PlaySays(names, id, pieces);
    PlayHoldsCalls(names, id, pieces);
    var t := Play(names, NewTurn(id), pieces).0;
    var slot := TextSlot(pieces);
    forall k | 0 <= k < |calls|
      ensures Place(slot, k) < |t.items| && Rendered(names, t, t.items[Place(slot, k)]) == CallItem(names, calls[k])
    {
      assert HoldsCall(t, Place(slot, k), Starts(pieces)[k], Joined(pieces, k));
    }
    if slot >= 0 { SlotIsText(names, id, pieces); }
  }

  /** The output of the stream is that of converting at once exactly when no call
      starts before the text. */
  lemma SameOutputIff(names: ToolNames, id: string, pieces: seq<Piece>, calls: seq<BatchCall>)
    requires SaysCalls(pieces, calls) && (SaidText(pieces) != "" <==> TextSlot(pieces) >= 0)
    ensures Output(names, Play(names, NewTurn(id), pieces).0) == BatchOutput(names, id, SaidText(pieces), calls)
            <==> TextSlot(pieces) <= 0
  {
    hide Play, Output, Starts, Joined, TextSlot, SaidText, CallItem, SaysCalls;
    OutputItems(names, id, pieces, calls);
    var output, batch := Output(names, Play(names, NewTurn(id), pieces).0),
                         BatchOutput(names, id, SaidText(pieces), calls);
    var slot := TextSlot(pieces);
    if slot <= 0 {
      forall p | 0 <= p < |output| ensures output[p] == batch[p] {
        if slot < 0 {
          assert Place(slot, p) == p;
        } else if p > 0 {
          assert Place(slot, p - 1) == p;
        }
      }
    } else {
      assert Place(slot, 0) == 0;
      CallsAreNoMessage(names, calls[0]);
    }
  }

  lemma CallsAreNoMessage(names: ToolNames, call: BatchCall)
    ensures CallItem(names, call).Call?
  {
  }

  // ---- chat streams ----

  /** Text begins with the first that is not empty. */
  ghost predicate Spoken(r: Chat.Reading, pieces: seq<Piece>) {
    (r.begun <==> BeginText in pieces) && (r.begun <==> SaidText(pieces) != "")
  }

  lemma {:induction false} SaidOne(p: Piece)
    ensures SaidText([p]) == match p case Say(text) => text case _ => ""
  {
    assert [p][..0] == [];
  }

  lemma ContentSpeaks(r: Chat.Reading, pieces: seq<Piece>, content: string)
    requires Spoken(r, pieces)
    ensures var (r', more) := Chat.ReadContent(r, content); Spoken(r', pieces + more)
  {
    hide SaidText;
    var more := Chat.ReadContent(r, content).1;
    assert pieces + [] == pieces;
    if content != "" {
      SaidOne(Say(content));
      SaidOne(BeginText);
      SaidAppend([BeginText], [Say(content)]);
      SaidAppend(pieces, more);
      assert [] + [Say(content)] == [Say(content)];
      if !r.begun { assert (pieces + more)[|pieces|] == BeginText; }
    }
  }

  lemma {:induction false} CallsSayNothing(r: Chat.Reading, calls: seq<ToolCallDelta>)
    ensures var (r', more) := Chat.ReadCalls(r, calls);
            r'.begun == r.begun && SaidText(more) == "" && BeginText !in more
    decreases |calls|
  {
    if calls != [] {
      var init, tc := calls[..|calls| - 1], calls[|calls| - 1];
      CallsSayNothing(r, init);
      var (r1, p1) := Chat.ReadCalls(r, init);
      var p2 := Chat.ReadCall(r1, tc).1;
      SaidAppend(p1, p2);
      CallSaysNothing(r1, tc);
    }
  }

  lemma CallSaysNothing(r: Chat.Reading, tc: ToolCallDelta)
    ensures var more := Chat.ReadCall(r, tc).1; SaidText(more) == "" && BeginText !in more
  {
    hide NumberOf;
    var start, feed := [Start(tc.id, tc.name)], [Feed(NumberOf(r.seen, tc.index), tc.arguments)];
    SaidOne(start[0]);
    SaidOne(feed[0]);
    SaidAppend(start, feed);
    SaidAppend(start, []);
    SaidAppend([], feed);
  }

  lemma {:induction false} ChatSpeaks(chunks: seq<Chunk>)
    ensures var (r, pieces) := Chat.ReadChunks(chunks); Spoken(r, pieces)
    decreases |chunks|
  {
    hide Chat.ReadContent, Chat.ReadCalls, Spoken;
    if chunks != [] {
      var init, last := chunks[..|chunks| - 1], chunks[|chunks| - 1];
      ChatSpeaks(init);
      assert chunks == init + [last];
      var (r, pieces) := Chat.ReadChunks(init);
      if last.choices != [] {
        var choice := last.choices[0];
        var (r1, p1) := Chat.ReadContent(r, choice.content);
        ContentSpeaks(r, pieces, choice.content);
        CallsSpeak(r1, pieces + p1, choice.toolCalls);
        var p2 := Chat.ReadCalls(r1, choice.toolCalls).1;
        assert pieces + p1 + p2 == pieces + (p1 + p2);
      }
    } else {
      NothingSpoken();
    }
  }

  lemma NothingSpoken()
    ensures Spoken(Chat.Reading([], false), [])
  {
  }

  lemma CallsSpeak(r: Chat.Reading, pieces: seq<Piece>, calls: seq<ToolCallDelta>)
    requires Spoken(r, pieces)
    ensures var (r', more) := Chat.ReadCalls(r, calls); Spoken(r', pieces + more)
  {
    hide SaidText, Chat.ReadCalls;
    CallsSayNothing(r, calls);
    SaidAppend(pieces, Chat.ReadCalls(r, calls).1);
    assert SaidText(pieces) + "" == SaidText(pieces);
  }

  /** The stream says the response: its identity, text, calls, finish reason and, by
      the time of its terminal, usage. */
  ghost predicate Says(chunks: seq<Chunk>, trailer: seq<Chunk>, resp: ChatResponse)
    requires Chat.WellFormed(chunks, trailer)
  {
    && chunks[0].id == resp.id && chunks[0].model == resp.model
    && chunks[|chunks| - 1].choices[0].finish == resp.finish && Chat.UsageAtTerminal(chunks, trailer) == resp.usage
    && PartsText(resp.parts) == Ok(SaidText(Chat.Pieces(chunks))) && SaysCalls(Chat.Pieces(chunks), resp.calls)
  }

  /** A stream of a response ends with the identity, status and usage of converting
      it at once, and with the same output array if and only if no call starts before
      the text: the stream keeps the order of arrival, the conversion at once puts the
      message first. */
  lemma {:induction false} StreamAgreesWithBatchIff(names: ToolNames, resp: ChatResponse, chunks: seq<Chunk>,
                                                    trailer: seq<Chunk>)
    requires Chat.WellFormed(chunks, trailer) && Says(chunks, trailer, resp)
    ensures var events, batch := Chat.StreamEvents(names, chunks, trailer), ChatResult(names, resp);
            && events != [] && batch.Ok? && events[|events| - 1].Completed?
            && var end, r := events[|events| - 1], batch.value;
            && end.id == r.id && end.model == r.model && end.status == r.status && end.usage == r.usage
            && (end.output == r.output <==> TextSlot(Chat.Pieces(chunks)) <= 0)
  {
    hide Play, Output, Completions, TextSlot, SaidText, SaysCalls, BatchOutput, Chat.StreamEvents, Chat.UsageAtTerminal,
         Chat.Ongoing, C2R.UsageOf, ResponseStatusFromFinish;
    var pieces := Chat.Pieces(chunks);
    Chat.ChatIsCanonical(names, chunks, trailer);
    ChatSpeaks(chunks);
    BegunIsSlotted(pieces);
    SameOutputIff(names, resp.id, pieces, resp.calls);
    PlaySays(names, resp.id, pieces);
  }

  // ---- what is refused, and what is read ----

  function Texts(parts: seq<Part>): (r: seq<string>)
    ensures |r| == |parts| && forall k | 0 <= k < |r| :: r[k] == parts[k].text
  {
    seq(|parts|, k requires 0 <= k < |parts| => parts[k].text)
  }

  /** A response is refused if and only if a part of its content is no text, and then for
      the first; otherwise its status is that of its finish reason, and its text the
      parts joined. */
  lemma {:induction false} RefusedIff(names: ToolNames, resp: ChatResponse)
    ensures var r, parts := ChatResult(names, resp), resp.parts;
            && (r.Ok? <==> forall k | 0 <= k < |parts| :: parts[k].kind == "text")
            && (r.Err? ==> exists k ::
                  0 <= k < |parts| && parts[k].kind != "text"
                  && r.error == Failure("output cannot represent " + parts[k].kind + " content blocks")
                  && forall j | 0 <= j < k :: parts[j].kind == "text")
            && (r.Ok? ==>
                  && r.value.id == resp.id && r.value.model == resp.model
                  && r.value.status == (if resp.finish == "length" then "incomplete" else "completed")
                  && PartsText(parts) == Ok(Concat(Texts(parts))))
  {
    hide BatchOutput, C2R.UsageOf;
    PartsJoin(resp.parts);
  }

  lemma {:induction false} PartsJoin(parts: seq<Part>)
    ensures PartsText(parts).Ok? ==>
              (forall k | 0 <= k < |parts| :: parts[k].kind == "text") && PartsText(parts).value == Concat(Texts(parts))
    ensures PartsText(parts).Err? ==> exists k ::
              0 <= k < |parts| && parts[k].kind != "text" && parts[k].kind == PartsText(parts).error
              && forall j | 0 <= j < k :: parts[j].kind == "text"
    decreases |parts|
  {
    if parts != [] {
      var n := |parts| - 1;
      PartsJoin(parts[..n]);
      assert forall k | 0 <= k < n :: parts[..n][k] == parts[k];
      assert Texts(parts)[..n] == Texts(parts[..n]);
      if PartsText(parts[..n]).Err? {
        var k :| 0 <= k < n && parts[..n][k].kind != "text" && parts[..n][k].kind == PartsText(parts[..n]).error
                 && forall j | 0 <= j < k :: parts[..n][j].kind == "text";
        assert parts[k].kind == PartsText(parts).error;
      }
    }
  }
}
