/** Chat Completions streams as bytes: a stream printed the way upstreams send it,
    cut anywhere, is read as the chunks it prints. */
module ChatBytes {
  import opened Basics
  import opened LineFeed
  import opened ChatChunks
  import opened ResponseTools
  import opened Wire
  import Claude = ChatToClaude
  import ClaudeMeaning = ChatClaudeMeaning
  import Responses = ChatToResponses
  import Chat = ChatMeaning
  import StreamedItems

  // ---- how upstreams print a stream ----

  /** One payload with any white space around it, a carriage return included, or a line
      that carries none: an event name, a comment, a blank line. */
  datatype Item = Payload(before: string, text: string, behind: string) | Other(line: string)

  function PrintOne(item: Item): string {
    match item
    case Payload(before, text, behind) => "data:" + before + text + behind + "\n\n"
    case Other(line) => line + "\n"
  }

  function Print(items: seq<Item>): string {
    if items == [] then "" else PrintOne(items[0]) + Print(items[1..])
  }

  predicate OneLine(s: string) {
    forall k | 0 <= k < |s| :: s[k] != '\n'
  }

  predicate White(s: string) {
    forall k | 0 <= k < |s| :: IsSpace(s[k])
  }

  /** A payload on one line, which decodes. */
  predicate Printable(decode: Decoder, item: Item) {
    match item
    case Payload(before, text, behind) =>
      && OneLine(before + text + behind) && White(before) && White(behind)
      && TrimSpace(text) == text && text != "" && text != "[DONE]" && decode(text).Ok?
    case Other(line) => OneLine(line) && !("data:" <= line)
  }

  predicate AllPrintable(decode: Decoder, items: seq<Item>) {
    forall k | 0 <= k < |items| :: Printable(decode, items[k])
  }

  /** The chunks that the payloads decode to. */
  function Decoded(decode: Decoder, items: seq<Item>): seq<Chunk>
    requires AllPrintable(decode, items)
  {
    if items == [] then []
    else FirstDecoded(decode, items[0]) + Decoded(decode, items[1..])
  }

  function FirstDecoded(decode: Decoder, item: Item): seq<Chunk>
    requires Printable(decode, item)
  {
    match item case Payload(_, text, _) => [decode(text).value] case Other(_) => []
  }

  const DONE := "data: [DONE]\n"

  // ---- single lines ----

  lemma {:induction false} TrimLeftShrinks(s: string)
    ensures |TrimLeft(s)| <= |s| && (s != "" && IsSpace(s[0]) ==> |TrimLeft(s)| < |s|)
    decreases |s|
  {
    if s != "" && IsSpace(s[0]) { TrimLeftShrinks(s[1..]); }
  }

  lemma {:induction false} TrimRightShrinks(s: string)
    ensures |TrimRight(s)| <= |s| && (s != "" && IsSpace(s[|s| - 1]) ==> |TrimRight(s)| < |s|)
    decreases |s|
  {
    if s != "" && IsSpace(s[|s| - 1]) { TrimRightShrinks(s[..|s| - 1]); }
  }

  /** Text that trimming leaves alone neither begins nor ends in white space. */
  lemma TrimmedEnds(s: string)
    requires TrimSpace(s) == s && s != ""
    ensures !IsSpace(s[0]) && !IsSpace(s[|s| - 1])
  {
    hide IsSpace;
    TrimLeftShrinks(s);
    TrimRightShrinks(TrimLeft(s));
  }

  lemma {:induction false} WhiteBefore(before: string, s: string)
    requires White(before) && s != "" && !IsSpace(s[0])
    ensures TrimLeft(before + s) == s
    decreases |before|
  {
    if before == "" {
      assert before + s == s;
    } else {
      assert (before + s)[1..] == before[1..] + s;
      WhiteBefore(before[1..], s);
    }
  }

  lemma {:induction false} WhiteBehind(s: string, behind: string)
    requires White(behind) && s != "" && !IsSpace(s[|s| - 1])
    ensures TrimRight(s + behind) == s
    decreases |behind|
  {
    if behind == "" {
      assert s + behind == s;
    } else {
      var n := |behind| - 1;
      assert (s + behind)[..|s| + n] == s + behind[..n];
      WhiteBehind(s, behind[..n]);
    }
  }

  /** The payload of a printed line is what is behind "data:", trimmed. */
  lemma PayloadLine(before: string, text: string, behind: string)
    requires White(before) && White(behind) && TrimSpace(text) == text && text != ""
    ensures Classify(TrimCR("data:" + before + text + behind)) == if text == "[DONE]" then Done else Data(text)
  {
    assert IsSpace('\r');
    TrimmedEnds(text);
    hide TrimSpace, IsSpace;
    var line := "data:" + before + text + behind;
    var kept := if behind != "" && behind[|behind| - 1] == '\r' then behind[..|behind| - 1] else behind;
    assert line[|line| - 1] == if behind == "" then text[|text| - 1] else behind[|behind| - 1];
    assert TrimCR(line) == "data:" + before + text + kept;
    assert ("data:" + before + text + kept)[5..] == before + (text + kept);
    PayloadIsTrimmed(before, text, kept);
  }

  lemma PayloadIsTrimmed(before: string, text: string, behind: string)
    requires White(before) && White(behind) && text != "" && !IsSpace(text[0]) && !IsSpace(text[|text| - 1])
    ensures TrimSpace(before + (text + behind)) == text
  {
    hide IsSpace;
    assert (text + behind)[0] == text[0];
    WhiteBefore(before, text + behind);
    WhiteBehind(text, behind);
  }

  lemma OtherLine(line: string)
    requires !("data:" <= line)
    ensures Classify(TrimCR(line)) == Skip
  {
  }

  // ---- whole streams ----

  /** A handler's first line. */
  lemma FirstLine<S, E>(h: Handler<S, E>, s: S, line: string, rest: string)
    requires OneLine(line)
    ensures var step, whole := h(s, line), Consume(h, true, s, false, line + "\n" + rest);
            if step.err.Some? then whole == Fed(step.state, rest, step.events, false, step.err)
            else if step.done then whole == Fed(step.state, rest, step.events, true, None)
            else
              var later := Consume(h, true, step.state, false, rest);
              whole == later.(events := step.events + later.events)
  {
    var buf := line + "\n" + rest;
    assert buf[|line|] == '\n' && buf[..|line|] == line && buf[|line| + 1..] == rest;
    LineEndIs(buf, 0, |line|);
    ConsumeLine(h, true, s, false, buf);
  }

  lemma OtherIsSkipped(decode: Decoder, line: string, before: seq<Chunk>, tail: string)
    requires OneLine(line) && !("data:" <= line)
    ensures Consume(Gather(decode), true, before, false, line + "\n" + tail) ==
            Consume(Gather(decode), true, before, false, tail)
  {
    OtherLine(line);
    hide Classify, TrimCR, Consume;
    FirstLine(Gather(decode), before, line, tail);
    var later := Consume(Gather(decode), true, before, false, tail);
    assert [] + later.events == later.events;
  }

  lemma PayloadIsDecoded(decode: Decoder, item: Item, before: seq<Chunk>, tail: string)
    requires Printable(decode, item) && item.Payload?
    ensures Consume(Gather(decode), true, before, false, PrintOne(item) + tail) ==
            Consume(Gather(decode), true, before + [decode(item.text).value], false, tail)
  {
    PayloadLine(item.before, item.text, item.behind);
    var line := "data:" + item.before + item.text + item.behind;
    LineOfPayload(item.before, item.text, item.behind);
    hide Classify, TrimCR, Consume, TrimSpace, IsSpace, White, OneLine;
    var rest := "" + "\n" + tail;
    assert PrintOne(item) + tail == line + "\n" + rest;
    var more := before + [decode(item.text).value];
    FirstLine(Gather(decode), before, line, rest);
    var later := Consume(Gather(decode), true, more, false, rest);
    assert [] + later.events == later.events;
    NothingIsOneLine();
    OtherIsSkipped(decode, "", more, tail);
  }

  lemma NothingIsOneLine()
    ensures OneLine("")
  {
  }

  lemma LineOfPayload(before: string, text: string, behind: string)
    requires OneLine(before + text + behind)
    ensures OneLine("data:" + before + text + behind)
  {
    var s := before + text + behind;
    assert "data:" + before + text + behind == "data:" + s;
    forall k | 0 <= k < |"data:" + s| ensures ("data:" + s)[k] != '\n' {
      if k >= 5 { assert ("data:" + s)[k] == s[k - 5]; }
    }
  }

  /** Printed items are read as the chunks they decode to. */
  lemma {:induction false} PrintedIsGathered(decode: Decoder, items: seq<Item>, before: seq<Chunk>, rest: string)
    requires AllPrintable(decode, items)
    ensures Consume(Gather(decode), true, before, false, Print(items) + rest) ==
            Consume(Gather(decode), true, before + Decoded(decode, items), false, rest)
    decreases |items|
  {
    hide Consume, PrintOne, Printable;
    if items == [] {
      assert Print(items) + rest == rest && before + [] == before;
    } else {
      var tail := Print(items[1..]) + rest;
      assert Print(items) + rest == PrintOne(items[0]) + tail;
      assert Printable(decode, items[0]);
      var first := FirstDecoded(decode, items[0]);
      ItemIsRead(decode, items[0], before, tail);
      PrintedIsGathered(decode, items[1..], before + first, rest);
      assert before + first + Decoded(decode, items[1..]) == before + (first + Decoded(decode, items[1..]));
    }
  }

  lemma ItemIsRead(decode: Decoder, item: Item, before: seq<Chunk>, tail: string)
    requires Printable(decode, item)
    ensures Consume(Gather(decode), true, before, false, PrintOne(item) + tail) ==
            Consume(Gather(decode), true, before + FirstDecoded(decode, item), false, tail)
  {
    hide Consume;
    match item
    case Payload(_, _, _) => PayloadIsDecoded(decode, item, before, tail);
    case Other(line) =>
      OtherIsSkipped(decode, line, before, tail);
      assert before + [] == before && PrintOne(item) + tail == line + "\n" + tail;
  }

  /** Printed items alone, and with the line that ends a stream behind them. */
  lemma {:induction false} PrintedIsRead(decode: Decoder, items: seq<Item>, rest: string)
    requires AllPrintable(decode, items)
    ensures Gathered(decode, Print(items)) == Fed(Decoded(decode, items), "", [], false, None)
    ensures Gathered(decode, Print(items) + DONE + rest) == Fed(Decoded(decode, items), rest, [], true, None)
  {
    hide Consume, TrimSpace, Classify, TrimCR, Print, Decoded, AllPrintable;
    var chunks := Decoded(decode, items);
    assert [] + chunks == chunks;
    PrintedIsGathered(decode, items, [], "");
    assert Print(items) + "" == Print(items);
    ConsumeLine(Gather(decode), true, chunks, false, "");
    PrintedIsGathered(decode, items, [], DONE + rest);
    assert Print(items) + DONE + rest == Print(items) + (DONE + rest);
    DoneIsRead(decode, chunks, rest);
  }

  lemma {:induction false} DoneIsRead(decode: Decoder, chunks: seq<Chunk>, rest: string)
    ensures Consume(Gather(decode), true, chunks, false, DONE + rest) == Fed(chunks, rest, [], true, None)
  {
    hide Consume, TrimSpace, Classify, TrimCR;
    DoneLine();
    var line := "data: [DONE]";
    assert OneLine(line) && DONE + rest == line + "\n" + rest;
    FirstLine(Gather(decode), chunks, line, rest);
  }

  lemma DoneLine()
    ensures Classify(TrimCR("data: [DONE]")) == Done
  {
    var text := "[DONE]";
    assert TrimLeft(text) == text && TrimRight(text) == text;
    assert White(" ");
    PayloadLine(" ", text, "");
    assert "data:" + " " + text + "" == "data: [DONE]";
  }

  // ---- what the clients have read ----

  /** The bytes of a stream that ends with [DONE], cut in any way: the Messages
      client has the whole message, if any chunk has a choice.  Before [DONE] it has
      what the chunks say so far, and the stream is not over. */
  lemma {:induction false} PrintedStreamReachesMessages(decode: Decoder, items: seq<Item>, rest: string,
                                                        pieces: seq<string>)
    requires AllPrintable(decode, items)
    ensures var chunks := Decoded(decode, items);
            var out := FeedAll(Claude.Lines(decode), true, Claude.Initial(), "", pieces);
            && (Join(pieces) == Print(items) + DONE + rest ==>
                  && out.done && out.err == None
                  && (ClaudeMeaning.HeadOf(chunks).Some? ==>
                        ClaudeMeaning.Reads(out.events, chunks,
                                            match ClaudeMeaning.FinishChunk(chunks)
                                            case None => None
                                            case Some(k) => Some(ClaudeMeaning.FinalAt(chunks, k)), true)))
            && (Join(pieces) == Print(items) ==>
                  !out.done && out.err == None && out.events == ClaudeMeaning.Run(chunks).1)
  {
    hide FeedAll, Gathered, ClaudeMeaning.Run, Claude.Ending, ClaudeMeaning.Reads, ClaudeMeaning.FinalAt,
         ClaudeMeaning.FinishChunk, ClaudeMeaning.HeadOf, Print, Decoded;
    PrintedIsRead(decode, items, rest);
    ClaudeMeaning.AnyChunkingRuns(decode, pieces);
    ClaudeMeaning.WholeStreamIsRead(decode, pieces);
  }

  /** The converter to Responses over a buffer, likewise. */
  lemma {:induction false} BufferRuns(decode: Decoder, names: ToolNames, chunks: seq<Chunk>, buf: string)
    ensures var (s, events) := Chat.Run(names, chunks);
            var all, read := Consume(Responses.Lines(decode, names), true, s, false, buf),
                             Consume(Gather(decode), true, chunks, false, buf);
            var (s', events') := Chat.Run(names, read.state);
            && all.done == read.done && all.err == read.err
            && events + all.events == (if read.done then events' + Responses.TerminalOf(names, s').1 else events')
    decreases |buf|
  {
    hide Responses.OnChunk, Responses.TerminalOf, Chat.Run, Classify, TrimCR, Consume;
    var (s, events) := Chat.Run(names, chunks);
    ConsumeLine(Responses.Lines(decode, names), true, s, false, buf);
    ConsumeLine(Gather(decode), true, chunks, false, buf);
    match LineEnd(buf)
    case None =>
      assert events + [] == events;
    case Some(i) =>
      var line, rest := buf[..i], buf[i + 1..];
      assert Responses.Lines(decode, names)(s, line) == Responses.OnLine(decode, names, s, line);
      var step := Responses.OnLine(decode, names, s, line);
      match Classify(TrimCR(line))
      case Skip =>
        BufferRuns(decode, names, chunks, rest);
        var later := Consume(Responses.Lines(decode, names), true, s, false, rest);
        assert [] + later.events == later.events;
      case Done =>
      case Data(payload) =>
        match decode(payload)
        case Err(_) =>
          assert events + [] == events;
        case Ok(chunk) =>
          Chat.RunSnoc(names, chunks, chunk);
          BufferRuns(decode, names, chunks + [chunk], rest);
          var later := Consume(Responses.Lines(decode, names), true, step.state, false, rest);
          assert events + (step.events + later.events) == events + step.events + later.events;
  }

  /** The bytes of a turn, its usage trailer and [DONE], cut in any way: the Responses
      client receives the turn, item by item. */
  lemma {:induction false} PrintedStreamReachesResponses(decode: Decoder, names: ToolNames, items: seq<Item>,
                                                         rest: string, pieces: seq<string>, chunks: seq<Chunk>,
                                                         trailer: seq<Chunk>)
    requires AllPrintable(decode, items) && Decoded(decode, items) == chunks + trailer
    requires Chat.WellFormed(chunks, trailer) && Join(pieces) == Print(items) + DONE + rest
    ensures var out := FeedAll(Responses.Lines(decode, names), true, Responses.Initial(), "", pieces);
            out.done && out.err == None && StreamedItems.ChatTurnIsRead(names, out.events, chunks, trailer)
  {
    hide Chat.Run, Responses.TerminalOf, Consume, FeedAll, Responses.OnLine, Responses.OnChunk, Print, Decoded,
         Chat.Pieces, StreamedItems.ChatTurnIsRead;
    StreamedItems.ChatStreamIsRead(names, chunks, trailer);
    var h := Responses.Lines(decode, names);
    PrintedIsRead(decode, items, rest);
    assert "" + Join(pieces) == Join(pieces);
    ChunkInvariance(h, Responses.Initial(), "", pieces);
    NothingRuns(names);
    BufferRuns(decode, names, [], Join(pieces));
    var all := Consume(h, true, Responses.Initial(), false, Join(pieces));
    assert [] + all.events == all.events;
  }

  lemma NothingRuns(names: ToolNames)
    ensures Chat.Run(names, []) == (Responses.Initial(), [])
  {
  }
}
