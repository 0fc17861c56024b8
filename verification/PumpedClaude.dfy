/** The pump driving the Chat Completions to Messages converter. */
module PumpedClaude {
  import opened Basics
  import opened LineFeed
  import opened ChatChunks
  import opened ClaudeClient
  import opened ChatToClaude
  import opened ChatClaudeMeaning
  import ChatUnits
  import opened StreamPump

  /** The converter's state between chunks: what its fields stand for, and the
      partial line. */
  type Conv = (State, string)

  function Claude(decode: Decoder): Converter<Conv, ClaudeEvent> {
    Converter((Initial(), ""),
              (c: Conv, chunk) => (var f := Consume(Lines(decode), true, c.0, false, c.1 + chunk);
                                   Output((f.state, f.rest), f.events, f.done, f.err)),
              (c: Conv) => (var (s, events) := Flushing(c.0);
                            ((s, c.1), events)))
  }

  function Driven(decode: Decoder, redact: string -> string, budget: int,
                  emitError: nat -> Option<string>): Plan<Conv, ClaudeEvent> {
    Plan(Claude(decode), redact, budget, emitError)
  }

  // ---- what the pump feeds is a stream ----

  /** Whether the converter said it was done with the last payload. */
  function LastDone<C, E>(cv: Converter<C, E>, fed: seq<string>): bool
    requires fed != []
  {
    Answer(cv, fed[..|fed| - 1], fed[|fed| - 1]).done
  }

  /** No payload made the converter fail, and none but the last ended it. */
  ghost predicate FedWell<C, E>(cv: Converter<C, E>, fed: seq<string>) {
    forall k | 0 <= k < |fed| ::
      Answer(cv, fed[..k], fed[k]).err.None? && (k < |fed| - 1 ==> !Answer(cv, fed[..k], fed[k]).done)
  }

  /** The payloads whose events were to reach the downstream. */
  function Kept<C, E>(p: Plan<C, E>, chunks: seq<StreamPump.Chunk>): seq<string> {
    match StopsAt(p, chunks)
    case None => Payloads(chunks)
    case Some(k) =>
      var v := Judged(p, Payloads(chunks[..k]), chunks[k]);
      Payloads(if v.Reading? || v.EmitFailed? then chunks[..k + 1] else chunks[..k])
  }

  /** Those were fed without a failure, and what was produced is their events,
      followed by the flush if the stream ended before the converter did. */
  lemma {:induction false} KeptIsFedWell<C, E>(p: Plan<C, E>, chunks: seq<StreamPump.Chunk>)
    ensures FedWell(p.cv, Kept(p, chunks))
    ensures var fed := Kept(p, chunks);
            var (c, events) := Converted(p.cv, fed);
            || Produced(p, chunks) == events
            || (fed != [] && !LastDone(p.cv, fed) && Produced(p, chunks) == events + p.cv.flush(c).1)
    ensures VerdictOf(p, chunks) == Completed ==>
              var fed := Kept(p, chunks);
              var (c, events) := Converted(p.cv, fed);
              fed != [] && Produced(p, chunks) == events + if LastDone(p.cv, fed) then [] else p.cv.flush(c).1
  {
    hide Converted, Answer, Emitted, StopsAt, Bytes;
    StopsFirst(p, chunks);
    var fed, n := Kept(p, chunks), |Kept(p, chunks)|;
    forall j | 0 <= j < n
      ensures fed[..j] == Payloads(chunks[..j]) && fed[j] == chunks[j].payload
    {
    }
    forall j | 0 <= j < n
      ensures Answer(p.cv, fed[..j], fed[j]).err.None? && (j < n - 1 ==> !Answer(p.cv, fed[..j], fed[j]).done)
    {
      var v := Judged(p, Payloads(chunks[..j]), chunks[j]);
    }
    if StopsAt(p, chunks).Some? {
      var (c, events) := Converted(p.cv, fed);
      assert events + [] == events;
    }
  }

  /** The pump's feeding is that of the stream, chunk by chunk. */
  lemma {:induction false} FeedingIsFeedAll(decode: Decoder, fed: seq<string>)
    requires FedWell(Claude(decode), fed)
    ensures var (c, events) := Converted(Claude(decode), fed);
            var out := FeedAll(Lines(decode), true, Initial(), "", fed);
            && c == (out.state, out.rest) && events == out.events && out.err.None?
            && (fed == [] ==> !out.done) && (fed != [] ==> (out.done <==> LastDone(Claude(decode), fed)))
    decreases |fed|
  {
    hide Consume;
    if fed != [] {
      var n := |fed| - 1;
      var init, last := fed[..n], fed[n];
      FedWellInit(Claude(decode), fed);
      FeedingIsFeedAll(decode, init);
      FeedAllSnoc(Lines(decode), true, Initial(), "", init, last);
      assert init + [last] == fed;
    }
  }

  lemma FedWellInit<C, E>(cv: Converter<C, E>, fed: seq<string>)
    requires fed != [] && FedWell(cv, fed)
    ensures var init := fed[..|fed| - 1];
            && FedWell(cv, init) && (init != [] ==> !LastDone(cv, init))
            && cv.feed(Converted(cv, init).0, fed[|fed| - 1]).err.None?
  {
    var n := |fed| - 1;
    var init := fed[..n];
    forall k | 0 <= k <= n ensures init[..k] == fed[..k] {
    }
    assert fed[..n] == init;
    if init != [] { assert init[..n - 1] == fed[..n - 1] && init[n - 1] == fed[n - 1]; }
  }

  /** Nothing but the last event is message_stop. */
  predicate StopsOnlyAtTheEnd(events: seq<ClaudeEvent>) {
    forall k | 0 <= k < |events| - 1 :: events[k] != MessageStop
  }

  /** What a completed stream amounts to: the events of its chunks, then what
      [DONE] adds, or what the flush adds. */
  function Delivered(read: Fed<seq<ChatChunks.Chunk>, ()>): seq<ClaudeEvent> {
    var (s, events) := Run(read.state);
    events + if read.done then Ending(s).1 else Flushing(s).1
  }

  /** When the pump completes, it has delivered exactly that, once. */
  lemma {:induction false} CompletedDelivers(decode: Decoder, redact: string -> string, budget: int,
                                             emitError: nat -> Option<string>, chunks: seq<StreamPump.Chunk>)
    requires VerdictOf(Driven(decode, redact, budget, emitError), chunks) == Completed
    ensures var p := Driven(decode, redact, budget, emitError);
            Asked(p, chunks) == Emits(Delivered(Gathered(decode, Join(Kept(p, chunks))))) + Closes("")
  {
    hide Run, Converted, FedWell, FeedAll, Gathered, Emits, Closes, LastDone, Flushing, Ending, Produced, StopsAt,
         Kept, VerdictOf;
    var p := Driven(decode, redact, budget, emitError);
    var fed := Kept(p, chunks);
    KeptIsFedWell(p, chunks);
    FeedingIsFeedAll(decode, fed);
    AnyChunkingRuns(decode, fed);
    VerdictOfEmits(p, chunks);
    var (s, events) := Run(Gathered(decode, Join(fed)).state);
    assert events + Ending(s).1 + [] == events + Ending(s).1;
  }

  /** message_stop comes at most once and last, and it comes exactly when the
      upstream sent [DONE] or a finish reason. */
  lemma DeliveredStopsOnceIff(read: Fed<seq<ChatChunks.Chunk>, ()>)
    ensures var delivered := Delivered(read);
            && StopsOnlyAtTheEnd(delivered)
            && (delivered != [] && delivered[|delivered| - 1] == MessageStop <==>
                read.done || FinishChunk(read.state).Some?)
  {
    hide Run, FinishChunk, Flushing, Ending;
    var (s, events) := Run(read.state);
    RunNeverStops(read.state);
    FlushEndsTheFinished(read.state);
    FlushStopsLast(s);
    EndingStopsLast(s);
  }

  /** On every path, whatever fails, what was to reach the downstream has
      message_stop at most once and last; the downstream sees a prefix of it. */
  lemma EveryPathStopsLast(decode: Decoder, redact: string -> string, budget: int, emitError: nat -> Option<string>,
                           chunks: seq<StreamPump.Chunk>)
    ensures StopsOnlyAtTheEnd(Produced(Driven(decode, redact, budget, emitError), chunks))
  {
    hide Run, Converted, FedWell, FeedAll, Gathered, LastDone, Flushing, Ending, Produced, StopsAt, Kept, VerdictOf;
    var p := Driven(decode, redact, budget, emitError);
    var fed := Kept(p, chunks);
    KeptIsFedWell(p, chunks);
    FeedingIsFeedAll(decode, fed);
    AnyChunkingRuns(decode, fed);
    var read := Gathered(decode, Join(fed));
    var (s, events) := Run(read.state);
    RunNeverStops(read.state);
    FlushStopsLast(s);
    EndingStopsLast(s);
  }

  lemma {:induction false} RunNeverStops(chunks: seq<ChatChunks.Chunk>)
    ensures forall k | 0 <= k < |Run(chunks).1| :: Run(chunks).1[k] != MessageStop
  {
    ClientReadsTheTurn(chunks);
    hide Run, Read, ChatUnits.Units, HeadOf, FinalSoFar, TextOf, ToolsOf, ChatUnits.Spoken, Calls;
    NotEnded(Run(chunks).1);
  }

  lemma NotEnded(events: seq<ClaudeEvent>)
    requires Read(false, NEW_CLIENT, events).Some? && !Read(false, NEW_CLIENT, events).value.ended
    ensures forall k | 0 <= k < |events| :: events[k] != MessageStop
  {
    hide Read, Count;
    AcceptedStreamsArePaired(false, events, 0);
  }

  lemma FlushStopsLast(s: State)
    ensures StopsOnlyAtTheEnd(Flushing(s).1)
  {
  }

  lemma EndingStopsLast(s: State)
    ensures var e := Ending(s).1;
            e != [] && e[|e| - 1] == MessageStop && StopsOnlyAtTheEnd(e)
  {
  }

  /** A failure without a text exists: an upstream error object with an empty
      message, whatever was read before it, closes the downstream in the middle of
      the stream with the label of success. */
  lemma {:induction false} SilentFailure(decode: Decoder, redact: string -> string, budget: int,
                                         emitError: nat -> Option<string>,
                                         before: seq<StreamPump.Chunk>, payload: string)
    requires payload != "" && TrimSpace(payload) == payload && !IsSSEDone(payload)
    requires forall k | 0 <= k < |payload| :: payload[k] !in {'\n', '\r'}
    requires decode(payload) == Err(Failure("")) && redact("") == ""
    requires StopsAt(Driven(decode, redact, budget, emitError), before).None?
             && Converted(Claude(decode), Payloads(before)).0.1 == ""
    requires Bytes(Payloads(before)) + |payload| + 6 <= budget
    ensures var p, chunk := Driven(decode, redact, budget, emitError),
                            StreamPump.Chunk("data:" + payload + "\n", "", false, None, false);
            && VerdictOf(p, before + [chunk]) == ConversionFailed("")
            && Asked(p, before + [chunk]) == Asked(p, before) + Closes("")
  {
    hide Converted, Emits, StopsAt, Consume, Reached, FirstFailing;
    var p, chunk := Driven(decode, redact, budget, emitError),
                    StreamPump.Chunk("data:" + payload + "\n", "", false, None, false);
    var fed := Payloads(before);
    ErrorLine(decode, Converted(p.cv, fed).0.0, payload);
    ConvertedSnoc(p.cv, fed, chunk.payload);
    assert "" + chunk.payload == chunk.payload;
    StopsSnoc(p, before, chunk);
    assert (before + [chunk])[..|before|] == before;
    assert Asked(p, before) == Emits(Reached(p, Converted(p.cv, fed).1)) + [];
  }

  lemma ErrorLine(decode: Decoder, s: State, payload: string)
    requires payload != "" && TrimSpace(payload) == payload && !IsSSEDone(payload)
    requires forall k | 0 <= k < |payload| :: payload[k] !in {'\n', '\r'}
    requires decode(payload) == Err(Failure(""))
    ensures Consume(Lines(decode), true, s, false, "data:" + payload + "\n") == Fed(s, "", [], false, Some(Failure("")))
  {
    var line := "data:" + payload;
    var buf := line + "\n";
    LineEndIs(buf, 0, |line|);
    assert buf[..|line|] == line && line[5..] == payload && buf[|line| + 1..] == "";
    assert line[|line| - 1] == payload[|payload| - 1];
    assert TrimCR(line) == line;
    assert Lines(decode)(s, line) == OnLine(decode, s, line);
  }
}
