/** The loop that reads an upstream stream, converts it and emits the result
    downstream, with its byte budget, its watchdog and its once-only close. */
module StreamPump {
  import opened Basics
  import opened LineFeed

  /** What one stream_read brought, and whether the watchdog had fired by then;
      the watchdog closes the upstream, so it may bring anything afterwards. */
  datatype Chunk = Chunk(payload: string, errMsg: string, closed: bool, err: Option<string>, aborted: bool)

  datatype Output<C, E> = Output(conv: C, events: seq<E>, done: bool, err: Option<Failure>)

  /** A converter as the pump uses it; one without Flush flushes nothing. */
  datatype Converter<!C, E> = Converter(start: C, feed: (C, string) -> Output<C, E>, flush: C -> (C, seq<E>))

  /** What a pump works with; emitError gives the error of the n-th StreamEmit
      call, if it fails. */
  datatype Plan<!C, E> = Plan(cv: Converter<C, E>, redact: string -> string, budget: int,
                              emitError: nat -> Option<string>)

  /** The calls the pump makes to the host, in order. */
  datatype Call<E> = Emit(event: E) | CloseUpstream | CloseDownstream(errMsg: string)

  datatype Verdict =
    | Reading            // the upstream has not ended yet
    | Completed
    | TimedOut
    | ReadFailed(cause: string)
    | UpstreamFailed(cause: string)
    | OverBudget
    | ConversionFailed(cause: string)
    | EmitFailed(cause: string)

  const TIMEOUT_TEXT := "stream exceeded request-timeout"
  const BUDGET_TEXT := "stream exceeded max-response-bytes"

  /** The label the downstream is closed with. */
  function Text(redact: string -> string, v: Verdict): string {
    match v
    case Reading => ""
    case Completed => ""
    case TimedOut => redact(TIMEOUT_TEXT)
    case OverBudget => redact(BUDGET_TEXT)
    case ReadFailed(c) => redact(c)
    case UpstreamFailed(c) => redact(c)
    case ConversionFailed(c) => redact(c)
    case EmitFailed(c) => redact(c)
  }

  function Emits<E>(events: seq<E>): (r: seq<Call<E>>)
    ensures |r| == |events| && forall k | 0 <= k < |r| :: r[k] == Emit(events[k])
  {
    seq(|events|, k requires 0 <= k < |events| => Emit(events[k]))
  }

  function Closes<E>(text: string): seq<Call<E>> {
    [CloseUpstream, CloseDownstream(text)]
  }

  /** The converter after some payloads, and all it returned for them. */
  function Converted<C, E>(cv: Converter<C, E>, payloads: seq<string>): (C, seq<E>) {
    if payloads == [] then (cv.start, [])
    else
      var (c, events) := Converted(cv, payloads[..|payloads| - 1]);
      var out := cv.feed(c, payloads[|payloads| - 1]);
      (out.conv, events + out.events)
  }

  function Bytes(payloads: seq<string>): nat {
    if payloads == [] then 0 else Bytes(payloads[..|payloads| - 1]) + |payloads[|payloads| - 1]|
  }

  function Payloads(chunks: seq<Chunk>): (r: seq<string>)
    ensures |r| == |chunks| && forall k | 0 <= k < |r| :: r[k] == chunks[k].payload
  {
    seq(|chunks|, k requires 0 <= k < |chunks| => chunks[k].payload)
  }

  lemma ConvertedSnoc<C, E>(cv: Converter<C, E>, payloads: seq<string>, last: string)
    ensures var (c, events) := Converted(cv, payloads);
            var out := cv.feed(c, last);
            Converted(cv, payloads + [last]) == (out.conv, events + out.events)
    ensures Bytes(payloads + [last]) == Bytes(payloads) + |last|
  {
    assert (payloads + [last])[..|payloads|] == payloads;
  }

  lemma {:induction false} BytesJoined(payloads: seq<string>)
    ensures Bytes(payloads) == |Concat(payloads)|
    decreases |payloads|
  {
    if payloads != [] { BytesJoined(payloads[..|payloads| - 1]); }
  }

  // ---- what each read comes to ----

  /** The first of n emits that fails. */
  function FirstFailing(emitError: nat -> Option<string>, n: nat): (r: Option<nat>)
    ensures r.Some? ==> r.value < n && emitError(r.value).Some? && forall i: nat | i < r.value :: emitError(i).None?
    ensures r.None? ==> forall i: nat | i < n :: emitError(i).None?
  {
    if n == 0 then None
    else
      var before := FirstFailing(emitError, n - 1);
      if before.Some? then before else if emitError(n - 1).Some? then Some(n - 1) else None
  }

  /** The fate of n emits made so far. */
  function Emitted(emitError: nat -> Option<string>, n: nat): Verdict {
    match FirstFailing(emitError, n)
    case None => Reading
    case Some(i) => EmitFailed(emitError(i).value)
  }

  /** How the converter answers a payload after those fed before. */
  function Answer<C, E>(cv: Converter<C, E>, fed: seq<string>, payload: string): Output<C, E> {
    cv.feed(Converted(cv, fed).0, payload)
  }

  /** The read brought a payload that the converter is to be fed. */
  predicate Feeds<C, E>(p: Plan<C, E>, fed: seq<string>, chunk: Chunk) {
    !chunk.aborted && chunk.err.None? && chunk.errMsg == "" && Bytes(fed + [chunk.payload]) <= p.budget
  }

  /** What a read comes to after the payloads fed before it: Reading unless
      something is wrong. */
  function Judged<C, E>(p: Plan<C, E>, fed: seq<string>, chunk: Chunk): (v: Verdict)
    ensures v != Completed
  {
    if chunk.aborted then TimedOut
    else if chunk.err.Some? then ReadFailed(chunk.err.value)
    else if chunk.errMsg != "" then UpstreamFailed(chunk.errMsg)
    else if Bytes(fed + [chunk.payload]) > p.budget then OverBudget
    else
      var out := Answer(p.cv, fed, chunk.payload);
      if out.err.Some? then ConversionFailed(out.err.value.cause)
      else Emitted(p.emitError, |Converted(p.cv, fed + [chunk.payload]).1|)
  }

  /** The stream goes on after this read. */
  predicate GoesOn<C, E>(p: Plan<C, E>, fed: seq<string>, chunk: Chunk) {
    Judged(p, fed, chunk) == Reading && !chunk.closed && !Answer(p.cv, fed, chunk.payload).done
  }

  /** The read that ends the stream: the first one that does not go on. */
  function StopsAt<C, E>(p: Plan<C, E>, chunks: seq<Chunk>): (r: Option<nat>)
    ensures r.Some? ==> r.value < |chunks|
  {
    if chunks == [] then None
    else
      var n := |chunks| - 1;
      var before := StopsAt(p, chunks[..n]);
      if before.Some? then before else if GoesOn(p, Payloads(chunks[..n]), chunks[n]) then None else Some(n)
  }

  /** Everything the converter returns up to the k-th read and, if it was not
      done by then, what its flush adds. */
  function Whole<C, E>(p: Plan<C, E>, chunks: seq<Chunk>, k: nat): seq<E>
    requires k < |chunks|
  {
    var (c, events) := Converted(p.cv, Payloads(chunks[..k + 1]));
    events + if Answer(p.cv, Payloads(chunks[..k]), chunks[k].payload).done then [] else p.cv.flush(c).1
  }

  // ---- the whole run ----

  /** What the pump makes of the reads, and all it asks of the host. */
  function VerdictOf<C, E>(p: Plan<C, E>, chunks: seq<Chunk>): Verdict {
    match StopsAt(p, chunks)
    case None => Reading
    case Some(k) =>
      var v := Judged(p, Payloads(chunks[..k]), chunks[k]);
      if v != Reading then v
      else
        var flushed := Emitted(p.emitError, |Whole(p, chunks, k)|);
        if flushed == Reading then Completed else flushed
  }

  /** The events that were to reach the downstream. */
  function Produced<C, E>(p: Plan<C, E>, chunks: seq<Chunk>): seq<E> {
    match StopsAt(p, chunks)
    case None => Converted(p.cv, Payloads(chunks)).1
    case Some(k) =>
      match Judged(p, Payloads(chunks[..k]), chunks[k])
      case Reading => Whole(p, chunks, k)
      case EmitFailed(_) => Converted(p.cv, Payloads(chunks[..k + 1])).1
      case _ => Converted(p.cv, Payloads(chunks[..k])).1
  }

  /** An event is emitted as long as no emit before it failed. */
  function Reached<C, E>(p: Plan<C, E>, events: seq<E>): (r: seq<E>)
    ensures r <= events
  {
    match FirstFailing(p.emitError, |events|)
    case None => events
    case Some(i) => events[..i + 1]
  }

  function Asked<C, E>(p: Plan<C, E>, chunks: seq<Chunk>): seq<Call<E>> {
    Emits(Reached(p, Produced(p, chunks))) +
      if VerdictOf(p, chunks) == Reading then [] else Closes(Text(p.redact, VerdictOf(p, chunks)))
  }

  // ---- what the definitions say ----

  /** The read that ends the stream is the first that does not go on. */
  lemma {:induction false} StopsFirst<C, E>(p: Plan<C, E>, chunks: seq<Chunk>)
    ensures StopsAt(p, chunks).Some? ==> var k := StopsAt(p, chunks).value; !GoesOn(p, Payloads(chunks[..k]), chunks[k])
    ensures forall j | 0 <= j < |chunks| && (StopsAt(p, chunks).Some? ==> j < StopsAt(p, chunks).value) ::
              GoesOn(p, Payloads(chunks[..j]), chunks[j])
    decreases |chunks|
  {
    hide GoesOn;
    if chunks != [] {
      var n := |chunks| - 1;
      StopsFirst(p, chunks[..n]);
      assert forall j | 0 <= j <= n :: chunks[..n][..j] == chunks[..j];
    }
  }

  /** Later reads do not matter once the stream has ended. */
  lemma {:induction false} StopSticks<C, E>(p: Plan<C, E>, chunks: seq<Chunk>, n: nat)
    requires n <= |chunks| && StopsAt(p, chunks[..n]).Some?
    ensures StopsAt(p, chunks) == StopsAt(p, chunks[..n])
    decreases |chunks| - n
  {
    hide GoesOn;
    if n == |chunks| {
      assert chunks[..n] == chunks;
    } else {
      assert chunks[..n + 1][..n] == chunks[..n];
      StopSticks(p, chunks, n + 1);
    }
  }

  lemma StopsSnoc<C, E>(p: Plan<C, E>, chunks: seq<Chunk>, chunk: Chunk)
    requires StopsAt(p, chunks).None?
    ensures StopsAt(p, chunks + [chunk]) == if GoesOn(p, Payloads(chunks), chunk) then None else Some(|chunks|)
  {
    assert (chunks + [chunk])[..|chunks|] == chunks;
  }

  lemma NoStopYet<C, E>(p: Plan<C, E>)
    ensures StopsAt(p, []).None?
  {
  }

  lemma PayloadsSnoc(chunks: seq<Chunk>, k: nat)
    requires k < |chunks|
    ensures Payloads(chunks[..k + 1]) == Payloads(chunks[..k]) + [chunks[k].payload]
  {
  }

  /** No emit fails while the stream goes on. */
  lemma {:induction false} GoingOnEmits<C, E>(p: Plan<C, E>, chunks: seq<Chunk>, k: nat)
    requires k <= |chunks| && forall j | 0 <= j < k :: GoesOn(p, Payloads(chunks[..j]), chunks[j])
    ensures FirstFailing(p.emitError, |Converted(p.cv, Payloads(chunks[..k])).1|).None?
  {
    if k == 0 {
      assert Payloads(chunks[..0]) == [];
    } else {
      PayloadsSnoc(chunks, k - 1);
      assert GoesOn(p, Payloads(chunks[..k - 1]), chunks[k - 1]);
    }
  }

  /** An emit failed if and only if that is the verdict. */
  lemma {:induction false} VerdictOfEmits<C, E>(p: Plan<C, E>, chunks: seq<Chunk>)
    ensures var failing, v := FirstFailing(p.emitError, |Produced(p, chunks)|), VerdictOf(p, chunks);
            && (failing.None? <==> !v.EmitFailed?)
            && (failing.Some? ==> v == EmitFailed(p.emitError(failing.value).value))
  {
    hide Text, Converted, Answer, FirstFailing, StopsAt, Feeds;
    StopsFirst(p, chunks);
    match StopsAt(p, chunks)
    case None =>
      assert chunks[..|chunks|] == chunks;
      GoingOnEmits(p, chunks, |chunks|);
    case Some(k) =>
      PayloadsSnoc(chunks, k);
      GoingOnEmits(p, chunks, k);
  }

  /** The downstream sees a prefix of what the converter returned, everything if
      no emit failed, and then one close of each stream and nothing more. */
  lemma PrefixThenOneClose<C, E>(p: Plan<C, E>, chunks: seq<Chunk>)
    ensures var events, v, calls := Produced(p, chunks), VerdictOf(p, chunks), Asked(p, chunks);
            exists n: nat | n <= |events| ::
              && calls == Emits(events[..n]) + (if v == Reading then [] else Closes(Text(p.redact, v)))
              && (!v.EmitFailed? ==> n == |events|)
              && (v.EmitFailed? ==>
                  0 < n && p.emitError(n - 1) == Some(v.cause) && forall i: nat | i < n - 1 :: p.emitError(i).None?)
  {
    hide Text, Produced, VerdictOf, Emits;
    var events := Produced(p, chunks);
    var n := |Reached(p, events)|;
    assert events[..|events|] == events;
    assert Reached(p, events) == events[..n];
    VerdictOfEmits(p, chunks);
  }

  /** The payloads the converter was fed. */
  function Consumed<C, E>(p: Plan<C, E>, chunks: seq<Chunk>): seq<string> {
    match StopsAt(p, chunks)
    case None => Payloads(chunks)
    case Some(k) => Payloads(if Feeds(p, Payloads(chunks[..k]), chunks[k]) then chunks[..k + 1] else chunks[..k])
  }

  lemma {:induction false} GoingOnIsWithinBudget<C, E>(p: Plan<C, E>, chunks: seq<Chunk>, k: nat)
    requires 0 <= p.budget && k <= |chunks| && (k > 0 ==> GoesOn(p, Payloads(chunks[..k - 1]), chunks[k - 1]))
    ensures Bytes(Payloads(chunks[..k])) <= p.budget
  {
    hide Converted, Answer, Emitted;
    if k == 0 {
      assert Payloads(chunks[..0]) == [];
    } else {
      PayloadsSnoc(chunks, k - 1);
    }
  }

  /** The converter is never fed more than the budget. */
  lemma FedStaysWithinBudget<C, E>(p: Plan<C, E>, chunks: seq<Chunk>)
    requires 0 <= p.budget
    ensures |Concat(Consumed(p, chunks))| <= p.budget && Consumed(p, chunks) <= Payloads(chunks)
  {
    BytesJoined(Consumed(p, chunks));
    hide Bytes, GoesOn, Concat;
    StopsFirst(p, chunks);
    match StopsAt(p, chunks)
    case None =>
      assert chunks[..|chunks|] == chunks;
      GoingOnIsWithinBudget(p, chunks, |chunks|);
    case Some(k) =>
      PayloadsSnoc(chunks, k);
      GoingOnIsWithinBudget(p, chunks, k);
  }

  /** The stream ended without any trouble: its last payload was converted and no
      emit failed, those of the flush included. */
  predicate EndsWell<C, E>(p: Plan<C, E>, chunks: seq<Chunk>, k: nat)
    requires k < |chunks|
  {
    && Feeds(p, Payloads(chunks[..k]), chunks[k]) && Answer(p.cv, Payloads(chunks[..k]), chunks[k].payload).err.None?
    && FirstFailing(p.emitError, |Whole(p, chunks, k)|).None?
  }

  /** A failure whose text, once redacted, is empty: of the read itself, of the
      conversion, or of an emit. */
  predicate FailsSilently<C, E>(p: Plan<C, E>, chunks: seq<Chunk>, k: nat)
    requires k < |chunks|
  {
    var fed, chunk := Payloads(chunks[..k]), chunks[k];
    var out := Answer(p.cv, fed, chunk.payload);
    || (!chunk.aborted && chunk.err.Some? && p.redact(chunk.err.value) == "")
    || (Feeds(p, fed, chunk) && out.err.Some? && p.redact(out.err.value.cause) == "")
    || (Feeds(p, fed, chunk) && out.err.None? &&
        match FirstFailing(p.emitError, |Whole(p, chunks, k)|)
        case None => false
        case Some(i) => p.redact(p.emitError(i).value) == "")
  }

  lemma FirstFailingGrows(emitError: nat -> Option<string>, n: nat, m: nat)
    requires n <= m && FirstFailing(emitError, n).Some?
    ensures FirstFailing(emitError, m) == FirstFailing(emitError, n)
  {
    var i := FirstFailing(emitError, n).value;
    assert emitError(i).Some?;
  }

  /** The label alone does not tell success from failure: the downstream is closed
      without a text exactly when the read that ended the stream ended it well or
      brought a failure without a text.  Only in the first case was everything
      delivered, the flush included. */
  lemma {:induction false} SilentCloseIff<C, E>(p: Plan<C, E>, chunks: seq<Chunk>, k: nat)
    requires StopsAt(p, chunks) == Some(k) && forall m :: m != "" ==> p.redact(m) != ""
    ensures var calls := Asked(p, chunks);
            && calls != []
            && (calls[|calls| - 1] == CloseDownstream("") <==> EndsWell(p, chunks, k) || FailsSilently(p, chunks, k))
            && (EndsWell(p, chunks, k) ==> calls == Emits(Whole(p, chunks, k)) + Closes(""))
            && (EndsWell(p, chunks, k) <==> VerdictOf(p, chunks) == Completed)
  {
    hide Emits, Converted, StopsAt, FirstFailing;
    assert TIMEOUT_TEXT != "" && BUDGET_TEXT != "";
    StopsFirst(p, chunks);
    PayloadsSnoc(chunks, k);
    var soFar := |Converted(p.cv, Payloads(chunks[..k + 1])).1|;
    if FirstFailing(p.emitError, soFar).Some? { FirstFailingGrows(p.emitError, soFar, |Whole(p, chunks, k)|); }
  }

  // ---- the same, check by check ----

  /** The payloads of the reads up to the k-th, joined, stay within the budget. */
  predicate WithinBudget<C, E>(p: Plan<C, E>, chunks: seq<Chunk>, k: nat)
    requires k < |chunks|
  {
    |Concat(Payloads(chunks[..k + 1]))| <= p.budget
  }

  /** Nothing is wrong with the k-th read, and it does not end the stream. */
  ghost predicate Fine<C, E>(p: Plan<C, E>, chunks: seq<Chunk>, k: nat)
    requires k < |chunks|
  {
    var chunk, before := chunks[k], Converted(p.cv, Payloads(chunks[..k]));
    var out := p.cv.feed(before.0, chunk.payload);
    && !chunk.aborted && chunk.err.None? && chunk.errMsg == "" && WithinBudget(p, chunks, k) && out.err.None?
    && (forall i: nat | i < |before.1 + out.events| :: p.emitError(i).None?)
    && !chunk.closed && !out.done
  }

  /** The stream ends with the first read that is not fine. */
  lemma {:induction false} StopsAtTheFirst<C, E>(p: Plan<C, E>, chunks: seq<Chunk>, k: nat)
    requires k < |chunks|
    ensures StopsAt(p, chunks) == Some(k) <==> !Fine(p, chunks, k) && forall j | 0 <= j < k :: Fine(p, chunks, j)
  {
    hide GoesOn, Fine, StopsAt;
    StopsFirst(p, chunks);
    forall j | 0 <= j < |chunks| ensures GoesOn(p, Payloads(chunks[..j]), chunks[j]) <==> Fine(p, chunks, j) {
      FineIs(p, chunks, j);
    }
  }

  lemma FineIs<C, E>(p: Plan<C, E>, chunks: seq<Chunk>, k: nat)
    requires k < |chunks|
    ensures GoesOn(p, Payloads(chunks[..k]), chunks[k]) <==> Fine(p, chunks, k)
  {
    BytesJoined(Payloads(chunks[..k + 1]));
    hide Bytes, Concat;
    PayloadsSnoc(chunks, k);
    ConvertedSnoc(p.cv, Payloads(chunks[..k]), chunks[k].payload);
    hide Converted;
  }

  /** The events that are to be emitted once the k-th read has ended the stream, those of
      a flush included, and what is wrong by then if no emit is. */
  function Due<C, E>(p: Plan<C, E>, chunks: seq<Chunk>, k: nat): (seq<E>, Option<string>)
    requires k < |chunks|
  {
    var chunk, (c, events) := chunks[k], Converted(p.cv, Payloads(chunks[..k]));
    if chunk.aborted then (events, Some("stream exceeded request-timeout"))
    else if chunk.err.Some? then (events, chunk.err)
    else if chunk.errMsg != "" then (events, Some(chunk.errMsg))
    else if !WithinBudget(p, chunks, k) then (events, Some("stream exceeded max-response-bytes"))
    else
      var out := p.cv.feed(c, chunk.payload);
      if out.err.Some? then (events, Some(out.err.value.cause))
      else (events + out.events + if out.done then [] else p.cv.flush(out.conv).1, None)
  }

  /** What the host is asked for in the end: the due events up to the first emit that
      fails, the upstream closed, and the downstream closed with what went wrong. */
  lemma {:induction false} HostIsAsked<C, E>(p: Plan<C, E>, chunks: seq<Chunk>, k: nat)
    requires StopsAt(p, chunks) == Some(k)
    ensures var (due, wrong) := Due(p, chunks, k);
            match FirstFailing(p.emitError, |due|)
            case None =>
              Asked(p, chunks) ==
                Emits(due) + [CloseUpstream, CloseDownstream(match wrong case None => "" case Some(m) => p.redact(m))]
            case Some(i) =>
              Asked(p, chunks) ==
                Emits(due[..i + 1]) + [CloseUpstream, CloseDownstream(p.redact(p.emitError(i).value))]
  {
    hide Emits, StopsAt, Bytes, Converted, Text, Reached, Whole, Due, Judged, Emitted;
    StopsFirst(p, chunks);
    GoingOnEmits(p, chunks, k);
    PayloadsSnoc(chunks, k);
    if Feeds(p, Payloads(chunks[..k]), chunks[k]) && Answer(p.cv, Payloads(chunks[..k]), chunks[k].payload).err.None? {
      DueIs(p, chunks, k);
      FedIsAsked(p, chunks, k);
    } else {
      UnfedIsAsked(p, chunks, k);
    }
  }

  /** Something is wrong before any emit of the last read. */
  lemma UnfedIsAsked<C, E>(p: Plan<C, E>, chunks: seq<Chunk>, k: nat)
    requires StopsAt(p, chunks) == Some(k)
    requires FirstFailing(p.emitError, |Converted(p.cv, Payloads(chunks[..k])).1|).None?
    requires !(Feeds(p, Payloads(chunks[..k]), chunks[k])
               && Answer(p.cv, Payloads(chunks[..k]), chunks[k].payload).err.None?)
    ensures var (due, wrong) := Due(p, chunks, k);
            && due == Converted(p.cv, Payloads(chunks[..k])).1 && wrong.Some?
            && Asked(p, chunks) == Emits(due) + [CloseUpstream, CloseDownstream(p.redact(wrong.value))]
  {
    BytesJoined(Payloads(chunks[..k + 1]));
    hide Emits, StopsAt, Bytes, Concat, Converted, FirstFailing, Whole;
    PayloadsSnoc(chunks, k);
  }

  /** Nothing is wrong but perhaps an emit. */
  lemma FedIsAsked<C, E>(p: Plan<C, E>, chunks: seq<Chunk>, k: nat)
    requires StopsAt(p, chunks) == Some(k)
    requires Feeds(p, Payloads(chunks[..k]), chunks[k])
             && Answer(p.cv, Payloads(chunks[..k]), chunks[k].payload).err.None?
    ensures var due := Whole(p, chunks, k);
            match FirstFailing(p.emitError, |due|)
            case None => Asked(p, chunks) == Emits(due) + [CloseUpstream, CloseDownstream("")]
            case Some(i) =>
              Asked(p, chunks) ==
                Emits(due[..i + 1]) + [CloseUpstream, CloseDownstream(p.redact(p.emitError(i).value))]
  {
    hide Emits, StopsAt, Bytes, Converted, FirstFailing;
    PayloadsSnoc(chunks, k);
    var events, due := Converted(p.cv, Payloads(chunks[..k + 1])).1, Whole(p, chunks, k);
    assert events <= due;
    if FirstFailing(p.emitError, |events|).Some? {
      FirstFailingGrows(p.emitError, |events|, |due|);
      var i := FirstFailing(p.emitError, |events|).value;
      assert events[..i + 1] == due[..i + 1];
    }
  }

  lemma DueIs<C, E>(p: Plan<C, E>, chunks: seq<Chunk>, k: nat)
    requires k < |chunks|
    ensures var fed, chunk := Payloads(chunks[..k]), chunks[k];
            Feeds(p, fed, chunk) && Answer(p.cv, fed, chunk.payload).err.None? ==>
              Due(p, chunks, k) == (Whole(p, chunks, k), None)
  {
    BytesJoined(Payloads(chunks[..k + 1]));
    hide Bytes, Concat;
    PayloadsSnoc(chunks, k);
    ConvertedSnoc(p.cv, Payloads(chunks[..k]), chunks[k].payload);
    hide Converted;
  }

  // ---- the pump ----

  class Pump<C, E> {
    const p: Plan<C, E>
    var conv: C
    var total: int
    var emitted: nat
    var closeDone: bool
    /** Everything the host was asked to do. */
    ghost var calls: seq<Call<E>>

    /** The state between two turns: all payloads read were fed, and all events
        emitted. */
    ghost predicate After(fed: seq<string>)
      reads this
    {
      var (c, events) := Converted(p.cv, fed);
      && conv == c && calls == Emits(events) && emitted == |events| && total == Bytes(fed) && !closeDone
      && FirstFailing(p.emitError, |events|).None?
    }

    constructor (p: Plan<C, E>)
      ensures this.p == p && After([])
    {
      this.p := p;
      conv, total, emitted, closeDone, calls := p.cv.start, 0, 0, false, [];
    }

    /** Closes both streams, the first time only. */
    method CloseStreams(text: string)
      modifies this`closeDone, this`calls
      ensures closeDone && calls == if old(closeDone) then old(calls) else old(calls) + Closes(text)
    {
      if closeDone { return; }
      closeDone := true;
      calls := calls + [CloseUpstream];
      calls := calls + [CloseDownstream(text)];
      assert old(calls) + [CloseUpstream] + [CloseDownstream(text)] == old(calls) + Closes(text);
    }

    /** Emits in order, up to the first failure. */
    method EmitAll(events: seq<E>, ghost sent: seq<E>) returns (err: Option<string>)
      requires calls == Emits(sent) && emitted == |sent| && FirstFailing(p.emitError, |sent|).None?
      modifies this`emitted, this`calls
      ensures calls == Emits(Reached(p, sent + events))
      ensures match FirstFailing(p.emitError, |sent + events|)
              case None => err == None && emitted == |sent + events|
              case Some(i) => err == p.emitError(i)
    {
      hide Emits;
      assert sent + events[..0] == sent;
      for k := 0 to |events|
        invariant calls == Emits(sent + events[..k]) && emitted == |sent| + k
                  && FirstFailing(p.emitError, |sent| + k).None?
      {
        calls := calls + [Emit(events[k])];
        EmitsSnoc(sent + events[..k], events[k]);
        assert sent + events[..k] + [events[k]] == sent + events[..k + 1];
        err := p.emitError(emitted);
        if err.Some? {
          FirstFailingGrows(p.emitError, |sent| + k + 1, |sent + events|);
          assert (sent + events)[..|sent| + k + 1] == sent + events[..k + 1];
          return err;
        }
        emitted := emitted + 1;
      }
      assert events[..|events|] == events;
      return None;
    }

    /** One turn of the loop: it goes on, or a verdict is reached. */
    method Turn(chunk: Chunk, ghost fed: seq<string>) returns (verdict: Verdict, convDone: bool)
      requires After(fed)
      modifies this`conv, this`total, this`emitted, this`calls
      ensures verdict == Judged(p, fed, chunk) && !closeDone
      ensures verdict == Reading ==> After(fed + [chunk.payload]) && convDone == Answer(p.cv, fed, chunk.payload).done
      ensures verdict.EmitFailed? ==> calls == Emits(Reached(p, Converted(p.cv, fed + [chunk.payload]).1))
      ensures verdict != Reading && !verdict.EmitFailed? ==> calls == old(calls)
    {
      hide Emits, Reached, FirstFailing;
      convDone := false;
      if chunk.aborted { return TimedOut, false; }
      if chunk.err.Some? { return ReadFailed(chunk.err.value), false; }
      if chunk.errMsg != "" { return UpstreamFailed(chunk.errMsg), false; }
      total := total + |chunk.payload|;
      ConvertedSnoc(p.cv, fed, chunk.payload);
      if total > p.budget { return OverBudget, false; }
      var out := p.cv.feed(conv, chunk.payload);
      conv := out.conv;
      if out.err.Some? { return ConversionFailed(out.err.value.cause), false; }
      var err := EmitAll(out.events, Converted(p.cv, fed).1);
      AllReached(p, Converted(p.cv, fed).1 + out.events);
      if err.Some? { return EmitFailed(err.value), false; }
      return Reading, out.done;
    }

    /** Closes on a failure; the deferred close then finds nothing left to do. */
    method Stop(text: string)
      requires !closeDone
      modifies this`closeDone, this`calls
      ensures closeDone && calls == old(calls) + Closes(text)
    {
      CloseStreams(text);
      CloseStreams("");
    }

    /** The whole pump over what the reads bring. */
    method Run(chunks: seq<Chunk>) returns (verdict: Verdict)
      requires After([])
      modifies this
      ensures verdict == VerdictOf(p, chunks) && calls == Asked(p, chunks)
    {
      hide Converted, Text, Closes, Judged, Answer, StopsAt, Whole, Bytes;
      assert Payloads(chunks[..0]) == [] && chunks[..0] == [];
      NoStopYet(p);
      for k := 0 to |chunks|
        invariant After(Payloads(chunks[..k])) && StopsAt(p, chunks[..k]).None?
      {
        ghost var fed := Payloads(chunks[..k]);
        PayloadsSnoc(chunks, k);
        StopsSnoc(p, chunks[..k], chunks[k]);
        assert chunks[..k] + [chunks[k]] == chunks[..k + 1];
        var convDone;
        verdict, convDone := Turn(chunks[k], fed);
        if verdict != Reading {
          StopSticks(p, chunks, k + 1);
          Stop(Text(p.redact, verdict));
          return;
        }
        if convDone || chunks[k].closed {
          StopSticks(p, chunks, k + 1);
          verdict := Finish(chunks, k, convDone);
          return;
        }
      }
      assert chunks[..|chunks|] == chunks;
      return Reading;
    }

    /** After the loop: what a converter that was not done still holds back, then
        the deferred close. */
    method Finish(chunks: seq<Chunk>, k: nat, convDone: bool) returns (verdict: Verdict)
      requires StopsAt(p, chunks) == Some(k) && After(Payloads(chunks[..k + 1]))
      requires Judged(p, Payloads(chunks[..k]), chunks[k]) == Reading
               && convDone == Answer(p.cv, Payloads(chunks[..k]), chunks[k].payload).done
      modifies this
      ensures verdict == VerdictOf(p, chunks) && calls == Asked(p, chunks)
    {
      hide Converted, Closes;
      ghost var events := Converted(p.cv, Payloads(chunks[..k + 1])).1;
      if !convDone {
        var (c, flushed) := p.cv.flush(conv);
        conv := c;
        var err := EmitAll(flushed, events);
        if err.Some? {
          verdict := EmitFailed(err.value);
          Stop(Text(p.redact, verdict));
          return;
        }
      } else {
        assert events + [] == events;
        AllReached(p, events);
      }
      CloseStreams("");
      return Completed;
    }
  }

  lemma EmitsSnoc<E>(events: seq<E>, e: E)
    ensures Emits(events + [e]) == Emits(events) + [Emit(e)]
  {
  }

  lemma AllReached<C, E>(p: Plan<C, E>, events: seq<E>)
    ensures FirstFailing(p.emitError, |events|).None? ==> Reached(p, events) == events
  {
  }
}
