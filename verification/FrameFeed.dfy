/** Feeding a converter frame by frame: the line loop of LineFeed with the
    framer in front, for converters whose unit of input is a whole frame. */
module FrameFeed {
  import opened Basics
  import opened LineFeed
  import Framing

  /** What one complete frame does to a converter's state. */
  type Dispatcher<!S, E> = (S, Framing.Frame) -> Step<S, E>

  datatype Reader<S> = Reader(block: Framing.Block, state: S)

  function OnLine<S, E>(wantRaw: bool, d: Dispatcher<S, E>, r: Reader<S>, line: string): Step<Reader<S>, E> {
    var (block, frames) := Framing.OnLine(wantRaw, r.block, line);
    if frames == [] then Step(r.(block := block), [], false, None)
    else
      var step := d(r.state, frames[0]);
      Step(Reader(block, step.state), step.events, step.done, step.err)
  }

  function Lines<S, E>(wantRaw: bool, d: Dispatcher<S, E>): Handler<Reader<S>, E> {
    (r, line) => OnLine(wantRaw, d, r, line)
  }

  /** The loop, one frame at a time. */
  lemma {:induction false} ConsumeByFrame<S, E>(wantRaw: bool, d: Dispatcher<S, E>, stops: bool, r: Reader<S>,
                                                done: bool, buf: string)
    requires stops ==> !done
    ensures var h := Lines(wantRaw, d);
            var (block, rest, frame) := Framing.NextFrame(wantRaw, r.block, buf);
            var all := Consume(h, stops, r, done, buf);
            match frame
            case None => all == Fed(r.(block := block), rest, [], done, None)
            case Some(f) =>
              var step := d(r.state, f);
              var r' := Reader(block, step.state);
              if step.err.Some? then all == Fed(r', rest, step.events, false, step.err)
              else if stops && step.done then all == Fed(r', rest, step.events, true, None)
              else
                var later := Consume(h, stops, r', done || step.done, rest);
                all == later.(events := step.events + later.events)
    decreases |buf|
  {
    hide Framing.OnLine;
    match LineEnd(buf)
    case None =>
    case Some(i) =>
      var h := Lines(wantRaw, d);
      var line := buf[..i];
      var (block, frames) := Framing.OnLine(wantRaw, r.block, line);
      assert h(r, line) == OnLine(wantRaw, d, r, line);
      if frames == [] {
        var r' := r.(block := block);
        ConsumeByFrame(wantRaw, d, stops, r', done, buf[i + 1..]);
        var later := Consume(h, stops, r', done, buf[i + 1..]);
        assert [] + later.events == later.events;
      } else {
        assert frames == [frames[0]];
      }
  }

  // ---- frames behind the end of the stream ----

  /** The frame a printed event is read as. */
  function FrameOf(e: Framing.Printed): Framing.Frame {
    Framing.Frame(TrimSpace(e.name), TrimCR(e.payload), "")
  }

  lemma LineConsumed<S, E>(d: Dispatcher<S, E>, stops: bool, r: Reader<S>, done: bool, line: string, rest: string)
    requires '\n' !in line && (stops ==> !done) && Framing.OnLine(false, r.block, line).1 == []
    ensures Consume(Lines(false, d), stops, r, done, line + "\n" + rest)
            == Consume(Lines(false, d), stops, r.(block := Framing.OnLine(false, r.block, line).0), done, rest)
  {
    hide Framing.OnLine;
    var buf := line + "\n" + rest;
    LineEndIs(buf, 0, |line|);
    assert buf[..|line|] == line && buf[|line| + 1..] == rest;
    assert Lines(false, d)(r, line) == OnLine(false, d, r, line);
    var later := Consume(Lines(false, d), stops, r.(block := Framing.OnLine(false, r.block, line).0), done, rest);
    assert [] + later.events == later.events;
  }

  /** A printed event at the front of the bytes is one frame. */
  lemma {:induction false} PrintedConsumed<S, E>(d: Dispatcher<S, E>, stops: bool, s: S, done: bool,
                                                 e: Framing.Printed, rest: string)
    requires Framing.OneLine(e) && (stops ==> !done)
    ensures var all := Consume(Lines(false, d), stops, Reader(Framing.EMPTY, s), done, Framing.SSEEvent(e) + rest);
            var step := d(s, FrameOf(e));
            var r := Reader(Framing.EMPTY, step.state);
            if step.err.Some? then all == Fed(r, rest, step.events, false, step.err)
            else if stops && step.done then all == Fed(r, rest, step.events, true, None)
            else
              var later := Consume(Lines(false, d), stops, r, done || step.done, rest);
              all == later.(events := step.events + later.events)
  {
    hide Framing.OnLine, TrimSpace, Consume;
    var l1, l2 := "event: " + e.name, "data: " + e.payload;
    Framing.EventLine(e.name, Framing.EMPTY);
    var b1 := Framing.EMPTY.(eventType := TrimSpace(e.name), sawFrame := true);
    Framing.DataLine(e.payload, b1);
    var b2 := b1.(data := TrimCR(e.payload));
    assert Framing.SSEEvent(e) + rest == l1 + "\n" + (l2 + "\n" + ("" + "\n" + rest));
    LineConsumed(d, stops, Reader(Framing.EMPTY, s), done, l1, l2 + "\n" + ("" + "\n" + rest));
    LineConsumed(d, stops, Reader(b1, s), done, l2, "" + "\n" + rest);
    BlankConsumed(d, stops, s, done, b2, rest);
  }

  lemma BlankConsumed<S, E>(d: Dispatcher<S, E>, stops: bool, s: S, done: bool, b: Framing.Block, rest: string)
    requires b.sawFrame && b.raw == "" && (stops ==> !done)
    ensures var all := Consume(Lines(false, d), stops, Reader(b, s), done, "" + "\n" + rest);
            var step := d(s, Framing.Frame(b.eventType, b.data, ""));
            var r := Reader(Framing.EMPTY, step.state);
            if step.err.Some? then all == Fed(r, rest, step.events, false, step.err)
            else if stops && step.done then all == Fed(r, rest, step.events, true, None)
            else
              var later := Consume(Lines(false, d), stops, r, done || step.done, rest);
              all == later.(events := step.events + later.events)
  {
    hide Consume;
    var buf := "" + "\n" + rest;
    LineEndIs(buf, 0, 0);
    assert buf[..0] == "" && buf[1..] == rest;
    ConsumeLine(Lines(false, d), stops, Reader(b, s), done, buf);
    assert Lines(false, d)(Reader(b, s), "") == OnLine(false, d, Reader(b, s), "");
  }

  /** Where a loop that does not stop shows how the network cut the bytes: a frame
      behind the end is converted if it came in the chunk of the end and never read
      if it came in the next. */
  lemma {:induction false} LateFrameShows<S, E>(d: Dispatcher<S, E>, s: S, end: Framing.Printed, late: Framing.Printed)
    requires Framing.OneLine(end) && Framing.OneLine(late)
    requires d(s, FrameOf(end)).done && d(s, FrameOf(end)).err.None?
    requires d(d(s, FrameOf(end)).state, FrameOf(late)).err.None?
    ensures var a, b := Framing.SSEEvent(end), Framing.SSEEvent(late);
            var last, more := d(s, FrameOf(end)), d(d(s, FrameOf(end)).state, FrameOf(late));
            && FeedAll(Lines(false, d), false, Reader(Framing.EMPTY, s), "", [a + b]).events ==
                 last.events + more.events
            && FeedAll(Lines(false, d), false, Reader(Framing.EMPTY, s), "", [a, b]).events == last.events
  {
    hide Consume, Framing.SSEEvent;
    var h, r := Lines(false, d), Reader(Framing.EMPTY, s);
    var a, b := Framing.SSEEvent(end), Framing.SSEEvent(late);
    var last := d(s, FrameOf(end));
    var r1 := Reader(Framing.EMPTY, last.state);
    PrintedConsumed(d, false, s, false, end, b);
    PrintedConsumed(d, false, last.state, true, late, "");
    PrintedConsumed(d, false, s, false, end, "");
    var more := d(last.state, FrameOf(late));
    ConsumeLine(h, false, Reader(Framing.EMPTY, more.state), true, "");
    ConsumeLine(h, false, r1, true, "");
    assert b + "" == b && a + "" == a && "" + a == a && "" + (a + b) == a + b;
    assert last.events + [] == last.events && more.events + [] == more.events;
    var whole := Consume(h, false, r, false, a + b);
    assert whole.Stopped();
  }
}
