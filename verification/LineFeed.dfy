/** Incremental consumption of a byte stream line by line: the loop that every
    stream converter's Feed runs, and its independence of how the network cuts
    the stream into chunks. */
module LineFeed {
  import opened Basics

  /** The class of a failed conversion; its text is opaque. */
  datatype Failure = Failure(cause: string)

  /** What one line does: the next state, the events it emits, whether it ends
      the stream, and a failure (events emitted with it are still returned). */
  datatype Step<S, E> = Step(state: S, events: seq<E>, done: bool, err: Option<Failure>)

  type Handler<!S, E> = (S, string) -> Step<S, E>

  datatype Fed<S, E> = Fed(state: S, rest: string, events: seq<E>, done: bool, err: Option<Failure>) {
    predicate Stopped() { done || err.Some? }
  }

  /** bytes.IndexByte(s, '\n') from position i on */
  function LineEnd(s: string, i: nat := 0): (r: Option<nat>)
    requires i <= |s|
    ensures r.Some? ==> i <= r.value < |s| && s[r.value] == '\n' && forall k | i <= k < r.value :: s[k] != '\n'
    ensures r.None? ==> forall k | i <= k < |s| :: s[k] != '\n'
    decreases |s| - i
  {
    if i == |s| then None else if s[i] == '\n' then Some(i) else LineEnd(s, i + 1)
  }

  /** Handles every complete line of buf.  With `stops`, a line that ends the
      stream ends the loop and leaves the rest buffered. */
  function Consume<S, E>(h: Handler<S, E>, stops: bool, s: S, done: bool, buf: string): Fed<S, E>
    decreases |buf|
  {
    match LineEnd(buf)
    case None => Fed(s, buf, [], done, None)
    case Some(i) =>
      var step := h(s, buf[..i]);
      var rest := buf[i + 1..];
      if step.err.Some? then Fed(step.state, rest, step.events, false, step.err)
      else if stops && (done || step.done) then Fed(step.state, rest, step.events, true, None)
      else
        var later := Consume(h, stops, step.state, done || step.done, rest);
        later.(events := step.events + later.events)
  }

  /** One turn of the loop. */
  lemma ConsumeLine<S, E>(h: Handler<S, E>, stops: bool, s: S, done: bool, buf: string)
    ensures var all := Consume(h, stops, s, done, buf);
            match LineEnd(buf)
            case None => all == Fed(s, buf, [], done, None)
            case Some(i) =>
              var step := h(s, buf[..i]);
              var rest := buf[i + 1..];
              if step.err.Some? then all == Fed(step.state, rest, step.events, false, step.err)
              else if stops && (done || step.done) then all == Fed(step.state, rest, step.events, true, None)
              else
                var later := Consume(h, stops, step.state, done || step.done, rest);
                all == later.(events := step.events + later.events)
  {
  }

  /** A whole run: chunks are fed until the stream has ended or failed.  A loop
      that stops ends at the line that ended the stream, one that does not at the
      end of that line's chunk. */
  function FeedAll<S, E>(h: Handler<S, E>, stops: bool, s: S, rest: string, chunks: seq<string>): Fed<S, E>
    decreases |chunks|
  {
    if chunks == [] then Fed(s, rest, [], false, None)
    else
      var first := Consume(h, stops, s, false, rest + chunks[0]);
      if first.Stopped() then first
      else
        var later := FeedAll(h, stops, first.state, first.rest, chunks[1..]);
        later.(events := first.events + later.events)
  }

  function Join(chunks: seq<string>): string {
    if chunks == [] then "" else chunks[0] + Join(chunks[1..])
  }

  lemma {:induction false} LineEndIs(s: string, i: nat, k: nat)
    requires i <= k < |s| && s[k] == '\n' && forall j | i <= j < k :: s[j] != '\n'
    ensures LineEnd(s, i) == Some(k)
    decreases k - i
  {
    if i < k { LineEndIs(s, i + 1, k); }
  }

  /** Bytes that arrive later are as good as bytes that were there at once. */
  lemma {:induction false} ConsumeSplit<S, E>(h: Handler<S, E>, stops: bool, s: S, done: bool, a: string, b: string)
    requires stops ==> !done
    ensures var first, whole := Consume(h, stops, s, done, a), Consume(h, stops, s, done, a + b);
            if first.err.Some? || (stops && first.done) then
              whole == first.(rest := first.rest + b)
            else
              var later := Consume(h, stops, first.state, first.done, first.rest + b);
              whole == later.(events := first.events + later.events)
    decreases |a|
  {
    match LineEnd(a)
    case None =>
      var later := Consume(h, stops, s, done, a + b);
      assert later.events == [] + later.events;
    case Some(i) =>
      LineEndIs(a + b, 0, i);
      assert (a + b)[..i] == a[..i];
      assert (a + b)[i + 1..] == a[i + 1..] + b;
      var step := h(s, a[..i]);
      if step.err.None? && !(stops && (done || step.done)) {
        ConsumeSplit(h, stops, step.state, done || step.done, a[i + 1..], b);
        var first := Consume(h, stops, step.state, done || step.done, a[i + 1..]);
        var later := Consume(h, stops, first.state, first.done, first.rest + b);
        assert (step.events + first.events) + later.events == step.events + (first.events + later.events);
      }
  }

  /** Chunk invariance: up to the end of the stream or its failure, any chunking
      gives the output, the state and the outcome of feeding all bytes at once. */
  lemma {:induction false} ChunkInvariance<S, E>(h: Handler<S, E>, s: S, rest: string, chunks: seq<string>)
    requires LineEnd(rest).None?
    ensures var pieces, whole := FeedAll(h, true, s, rest, chunks), Consume(h, true, s, false, rest + Join(chunks));
            && pieces.events == whole.events && pieces.state == whole.state
            && pieces.done == whole.done && pieces.err == whole.err
            && (!pieces.Stopped() ==> pieces.rest == whole.rest)
    decreases |chunks|
  {
    if chunks == [] {
      assert rest + Join(chunks) == rest;
    } else {
      var a, b := rest + chunks[0], Join(chunks[1..]);
      assert rest + Join(chunks) == a + b;
      ConsumeSplit(h, true, s, false, a, b);
      var first := Consume(h, true, s, false, a);
      if !first.Stopped() {
        RestHasNoLine(h, s, a);
        ChunkInvariance(h, first.state, first.rest, chunks[1..]);
      }
    }
  }

  lemma {:induction false} RestHasNoLine<S, E>(h: Handler<S, E>, s: S, buf: string)
    requires !Consume(h, true, s, false, buf).Stopped()
    ensures LineEnd(Consume(h, true, s, false, buf).rest).None?
    decreases |buf|
  {
    match LineEnd(buf)
    case None =>
    case Some(i) => RestHasNoLine(h, h(s, buf[..i]).state, buf[i + 1..]);
  }

  /** A run that has not stopped goes on with the next chunk. */
  lemma {:induction false} FeedAllSnoc<S, E>(h: Handler<S, E>, stops: bool, s: S, rest: string, chunks: seq<string>,
                                             last: string)
    ensures var before := FeedAll(h, stops, s, rest, chunks);
            !before.Stopped() ==>
              var more := Consume(h, stops, before.state, false, before.rest + last);
              FeedAll(h, stops, s, rest, chunks + [last]) == more.(events := before.events + more.events)
    decreases |chunks|
  {
    hide Consume;
    var all := chunks + [last];
    if chunks == [] {
      var more := Consume(h, stops, s, false, rest + last);
      assert [] + more.events == more.events && more.events + [] == more.events;
      assert all[1..] == [];
    } else {
      assert all[0] == chunks[0] && all[1..] == chunks[1..] + [last];
      var first := Consume(h, stops, s, false, rest + chunks[0]);
      if !first.Stopped() {
        FeedAllSnoc(h, stops, first.state, first.rest, chunks[1..], last);
        var before := FeedAll(h, stops, first.state, first.rest, chunks[1..]);
        var more := Consume(h, stops, before.state, false, before.rest + last);
        assert first.events + (before.events + more.events) == first.events + before.events + more.events;
      }
    }
  }

  // ---- loops that do not stop at the end of the stream ----

  lemma {:induction false} DoneStays<S, E>(h: Handler<S, E>, s: S, buf: string)
    ensures Consume(h, false, s, true, buf).Stopped()
    decreases |buf|
  {
    match LineEnd(buf)
    case None =>
    case Some(i) => DoneStays(h, h(s, buf[..i]).state, buf[i + 1..]);
  }

  /** What such a loop does beyond one that stops: the lines behind the end. */
  lemma {:induction false} LooseConsume<S, E>(h: Handler<S, E>, s: S, buf: string)
    ensures var strict, loose := Consume(h, true, s, false, buf), Consume(h, false, s, false, buf);
            if strict.done then
              var tail := Consume(h, false, strict.state, true, strict.rest);
              loose == tail.(events := strict.events + tail.events)
            else loose == strict
    decreases |buf|
  {
    match LineEnd(buf)
    case None =>
    case Some(i) =>
      var step := h(s, buf[..i]);
      if step.err.None? && !step.done {
        var rest := buf[i + 1..];
        LooseConsume(h, step.state, rest);
        var strict := Consume(h, true, step.state, false, rest);
        var tail := Consume(h, false, strict.state, true, strict.rest);
        assert step.events + (strict.events + tail.events) == step.events + strict.events + tail.events;
      }
  }

  lemma {:induction false} LooseFeedAll<S, E>(h: Handler<S, E>, s: S, rest: string, chunks: seq<string>)
    ensures var strict, loose := FeedAll(h, true, s, rest, chunks), FeedAll(h, false, s, rest, chunks);
            if strict.done then
              var tail := Consume(h, false, strict.state, true, strict.rest);
              loose == tail.(events := strict.events + tail.events) && tail.Stopped()
            else loose == strict
    decreases |chunks|
  {
    hide Consume;
    if chunks != [] {
      LooseConsume(h, s, rest + chunks[0]);
      var first := Consume(h, true, s, false, rest + chunks[0]);
      if first.done {
        DoneStays(h, first.state, first.rest);
      } else if first.err.None? {
        LooseFeedAll(h, first.state, first.rest, chunks[1..]);
        var strict := FeedAll(h, true, first.state, first.rest, chunks[1..]);
        var tail := Consume(h, false, strict.state, true, strict.rest);
        assert first.events + (strict.events + tail.events) == first.events + strict.events + tail.events;
      }
    }
  }

  /** What the lines behind the end of the stream, in the chunk of that end, do. */
  function Tail<S, E>(h: Handler<S, E>, s: S, rest: string, chunks: seq<string>): Fed<S, E> {
    var strict := FeedAll(h, true, s, rest, chunks);
    Consume(h, false, strict.state, true, strict.rest)
  }

  /** Chunk invariance of such a loop: the output and outcome up to the end of the
      stream, for every chunking, if and only if what follows the end in its own
      chunk emits nothing and does not fail. */
  lemma {:induction false} LooseChunkInvarianceIff<S, E>(h: Handler<S, E>, s: S, rest: string, chunks: seq<string>)
    requires LineEnd(rest).None?
    ensures var loose, whole, tail := FeedAll(h, false, s, rest, chunks),
                                      Consume(h, true, s, false, rest + Join(chunks)), Tail(h, s, rest, chunks);
            (loose.events == whole.events && loose.done == whole.done && loose.err == whole.err)
            <==> (whole.done ==> tail.events == [] && tail.err.None?)
  {
    hide Consume, FeedAll;
    ChunkInvariance(h, s, rest, chunks);
    LooseFeedAll(h, s, rest, chunks);
    var strict, tail := FeedAll(h, true, s, rest, chunks), Tail(h, s, rest, chunks);
    if strict.done {
      assert |strict.events + tail.events| == |strict.events| + |tail.events|;
      EndIsNoFailure(h, s, rest, chunks);
    }
  }

  lemma {:induction false} ConsumeEnds<S, E>(h: Handler<S, E>, stops: bool, s: S, done: bool, buf: string)
    ensures var r := Consume(h, stops, s, done, buf); r.done ==> r.err.None?
    decreases |buf|
  {
    match LineEnd(buf)
    case None =>
    case Some(i) => ConsumeEnds(h, stops, h(s, buf[..i]).state, done || h(s, buf[..i]).done, buf[i + 1..]);
  }

  lemma {:induction false} EndIsNoFailure<S, E>(h: Handler<S, E>, s: S, rest: string, chunks: seq<string>)
    ensures var strict, tail := FeedAll(h, true, s, rest, chunks), Tail(h, s, rest, chunks);
            (strict.done ==> strict.err.None?) && (tail.done ==> tail.err.None?)
    decreases |chunks|
  {
    hide Consume;
    var strict := FeedAll(h, true, s, rest, chunks);
    ConsumeEnds(h, false, strict.state, true, strict.rest);
    if chunks != [] {
      var first := Consume(h, true, s, false, rest + chunks[0]);
      ConsumeEnds(h, true, s, false, rest + chunks[0]);
      if !first.Stopped() { EndIsNoFailure(h, first.state, first.rest, chunks[1..]); }
    }
  }

  /** The same loop under a caller that feeds every chunk, whatever it hears. */
  function FeedOn<S, E>(h: Handler<S, E>, s: S, done: bool, rest: string, chunks: seq<string>): Fed<S, E>
    decreases |chunks|
  {
    if chunks == [] then Fed(s, rest, [], done, None)
    else
      var first := Consume(h, false, s, done, rest + chunks[0]);
      if first.err.Some? then first
      else
        var later := FeedOn(h, first.state, first.done, first.rest, chunks[1..]);
        later.(events := first.events + later.events)
  }

  /** For that caller every chunking is as good as all bytes at once, without a
      condition. */
  lemma {:induction false} FeedOnInvariance<S, E>(h: Handler<S, E>, s: S, done: bool, rest: string, chunks: seq<string>)
    requires LineEnd(rest).None?
    ensures var pieces, whole := FeedOn(h, s, done, rest, chunks), Consume(h, false, s, done, rest + Join(chunks));
            && pieces.events == whole.events && pieces.state == whole.state
            && pieces.done == whole.done && pieces.err == whole.err
            && (pieces.err.None? ==> pieces.rest == whole.rest)
    decreases |chunks|
  {
    if chunks == [] {
      assert rest + Join(chunks) == rest;
    } else {
      var a, b := rest + chunks[0], Join(chunks[1..]);
      assert rest + Join(chunks) == a + b;
      ConsumeSplit(h, false, s, done, a, b);
      var first := Consume(h, false, s, done, a);
      if first.err.None? {
        LooseRestHasNoLine(h, s, done, a);
        FeedOnInvariance(h, first.state, first.done, first.rest, chunks[1..]);
      }
    }
  }

  lemma {:induction false} LooseRestHasNoLine<S, E>(h: Handler<S, E>, s: S, done: bool, buf: string)
    requires Consume(h, false, s, done, buf).err.None?
    ensures LineEnd(Consume(h, false, s, done, buf).rest).None?
    decreases |buf|
  {
    match LineEnd(buf)
    case None =>
    case Some(i) => LooseRestHasNoLine(h, h(s, buf[..i]).state, done || h(s, buf[..i]).done, buf[i + 1..]);
  }
}
