/** Upstream events printed as frames: however the network cuts the bytes, a
    converter takes them one by one. */
module PrintedFrames {
  import opened Basics
  import opened LineFeed
  import opened FrameFeed
  import Framing

  /** One event: its name, where it has an event line, and its payload. */
  datatype Record = Record(name: Option<string>, payload: string)

  function PrintOne(item: Record): string {
    (if item.name.Some? then "event: " + item.name.value + "\n" else "") + "data: " + item.payload + "\n\n"
  }

  function Print(items: seq<Record>): string {
    if items == [] then "" else PrintOne(items[0]) + Print(items[1..])
  }

  predicate Printable(item: Record) {
    (item.name.Some? ==> '\n' !in item.name.value) && '\n' !in item.payload
  }

  /** The frame an item is read as. */
  function FrameOfItem(item: Record): Framing.Frame {
    Framing.Frame(if item.name.Some? then TrimSpace(item.name.value) else "", TrimCR(item.payload), "")
  }

  type Decoding<!V> = Framing.Frame -> Result<V, Failure>

  /** The items print the events. */
  ghost predicate AllPrint<V>(decode: Decoding<V>, items: seq<Record>, events: seq<V>) {
    && |items| == |events|
    && forall k | 0 <= k < |items| :: Printable(items[k]) && decode(FrameOfItem(items[k])) == Ok(events[k])
  }

  /** What a converter does to one event. */
  type Handling<!S, !V, E> = (S, V) -> Step<S, E>

  /** The steps of a converter over some events, up to the first that ends the stream
      or fails. */
  function Steps<S, V, E>(on: Handling<S, V, E>, s: S, events: seq<V>): Step<S, E> {
    if events == [] then Step(s, [], false, None)
    else
      var step := on(s, events[0]);
      if step.done || step.err.Some? then step
      else
        var later := Steps(on, step.state, events[1..]);
        later.(events := step.events + later.events)
  }

  /** A converter's dispatcher does to a frame what it does to the event it decodes to. */
  ghost predicate Dispatches<S(!new), V, E>(decode: Decoding<V>, d: Dispatcher<S, E>, on: Handling<S, V, E>) {
    forall s, frame :: decode(frame).Ok? ==> d(s, frame) == on(s, decode(frame).value)
  }

  /** A printed item at the front of the bytes is one frame. */
  lemma {:induction false} ItemConsumed<S, E>(d: Dispatcher<S, E>, s: S, item: Record, rest: string)
    requires Printable(item)
    ensures var all := Consume(Lines(false, d), true, Reader(Framing.EMPTY, s), false, PrintOne(item) + rest);
            var step := d(s, FrameOfItem(item));
            var r := Reader(Framing.EMPTY, step.state);
            if step.err.Some? then all == Fed(r, rest, step.events, false, step.err)
            else if step.done then all == Fed(r, rest, step.events, true, None)
            else
              var later := Consume(Lines(false, d), true, r, false, rest);
              all == later.(events := step.events + later.events)
  {
    hide Framing.OnLine, TrimSpace, Consume;
    var l2 := "data: " + item.payload;
    var b1 := if item.name.Some? then Framing.EMPTY.(eventType := TrimSpace(item.name.value), sawFrame := true)
              else Framing.EMPTY;
    Framing.DataLine(item.payload, b1);
    var b2 := b1.(data := TrimCR(item.payload), sawFrame := true);
    var tail := l2 + "\n" + ("" + "\n" + rest);
    if item.name.Some? {
      var l1 := "event: " + item.name.value;
      assert PrintOne(item) + rest == l1 + "\n" + tail;
      Framing.EventLine(item.name.value, Framing.EMPTY);
      LineConsumed(d, true, Reader(Framing.EMPTY, s), false, l1, tail);
    } else {
      assert PrintOne(item) + rest == tail;
    }
    LineConsumed(d, true, Reader(b1, s), false, l2, "" + "\n" + rest);
    BlankConsumed(d, true, s, false, b2, rest);
  }

  /** Printed bytes are converted event by event. */
  lemma {:induction false} PrintedIsConverted<S(!new), V, E>(decode: Decoding<V>, d: Dispatcher<S, E>,
                                                             on: Handling<S, V, E>, s: S, items: seq<Record>,
                                                             events: seq<V>)
    requires AllPrint(decode, items, events) && Dispatches(decode, d, on)
    ensures var all := Consume(Lines(false, d), true, Reader(Framing.EMPTY, s), false, Print(items));
            var run := Steps(on, s, events);
            && all.state == Reader(Framing.EMPTY, run.state) && all.events == run.events && all.err == run.err
            && all.done == (run.done && run.err.None?)
    decreases |items|
  {
    hide Consume, PrintOne, FrameOfItem, Printable;
    if items == [] {
      ConsumeLine(Lines(false, d), true, Reader(Framing.EMPTY, s), false, "");
    } else {
      assert Printable(items[0]) && decode(FrameOfItem(items[0])) == Ok(events[0]);
      ItemConsumed(d, s, items[0], Print(items[1..]));
      var step := on(s, events[0]);
      assert d(s, FrameOfItem(items[0])) == step;
      if !step.done && step.err.None? {
        forall k | 0 <= k < |items| - 1
          ensures Printable(items[1..][k]) && decode(FrameOfItem(items[1..][k])) == Ok(events[1..][k])
        {
          assert items[1..][k] == items[k + 1];
        }
        PrintedIsConverted(decode, d, on, step.state, items[1..], events[1..]);
      }
    }
  }

  lemma {:induction false} StepsSnoc<S, V, E>(on: Handling<S, V, E>, s: S, events: seq<V>, ev: V)
    ensures var before := Steps(on, s, events);
            Steps(on, s, events + [ev]) ==
            if before.done || before.err.Some? then before
            else
              var step := on(before.state, ev);
              step.(events := before.events + step.events)
    decreases |events|
  {
    if events == [] {
      assert [] + [ev] == [ev] && [ev][1..] == [];
      var step := on(s, ev);
      assert [] + step.events == step.events && step.events + [] == step.events;
    } else {
      assert (events + [ev])[0] == events[0] && (events + [ev])[1..] == events[1..] + [ev];
      var step := on(s, events[0]);
      if !step.done && step.err.None? {
        StepsSnoc(on, step.state, events[1..], ev);
        var before := Steps(on, step.state, events[1..]);
        if !before.done && before.err.None? {
          var last := on(before.state, ev);
          assert step.events + (before.events + last.events) == step.events + before.events + last.events;
        }
      }
    }
  }

  /** However the network cuts printed bytes, for a loop that stops at the end. */
  lemma {:induction false} PrintedIsFed<S(!new), V, E>(decode: Decoding<V>, d: Dispatcher<S, E>,
                                                       on: Handling<S, V, E>, s: S, items: seq<Record>,
                                                       events: seq<V>, cut: seq<string>)
    requires AllPrint(decode, items, events) && Dispatches(decode, d, on) && Join(cut) == Print(items)
    ensures var out := FeedAll(Lines(false, d), true, Reader(Framing.EMPTY, s), "", cut);
            var run := Steps(on, s, events);
            && out.events == run.events && out.err == run.err && out.done == (run.done && run.err.None?)
  {
    hide Consume, FeedAll, Steps, AllPrint, Dispatches, Print;
    assert "" + Join(cut) == Join(cut);
    ChunkInvariance(Lines(false, d), Reader(Framing.EMPTY, s), "", cut);
    PrintedIsConverted(decode, d, on, s, items, events);
  }

  // ---- loops that do not stop at the end ----

  lemma NoLineNoEnd<S, E>(h: Handler<S, E>, s: S, buf: string)
    requires LineEnd(buf).None?
    ensures !Consume(h, true, s, false, buf + "").done
  {
    assert buf + "" == buf;
  }

  /** Nothing is left behind an end that is the end of the bytes. */
  lemma {:induction false} NothingIsLeft<S, E>(h: Handler<S, E>, s: S, rest: string, chunks: seq<string>)
    requires LineEnd(rest).None?
    requires var whole := Consume(h, true, s, false, rest + Join(chunks)); whole.done && whole.rest == ""
    ensures FeedAll(h, true, s, rest, chunks).rest == ""
    decreases |chunks|
  {
    hide Consume, LineEnd;
    if chunks == [] {
      NoLineNoEnd(h, s, rest);
    } else {
      var a, b := rest + chunks[0], Join(chunks[1..]);
      assert rest + Join(chunks) == a + b;
      ConsumeSplit(h, true, s, false, a, b);
      var first := Consume(h, true, s, false, a);
      assert FeedAll(h, true, s, rest, chunks).rest ==
        if first.Stopped() then first.rest else FeedAll(h, true, first.state, first.rest, chunks[1..]).rest;
      hide FeedAll, Join;
      if !first.Stopped() {
        RestHasNoLine(h, s, a);
        NothingIsLeft(h, first.state, first.rest, chunks[1..]);
      }
    }
  }

  /** Printed bytes that end with the event that ends the stream leave nothing. */
  lemma {:induction false} PrintedLeavesNothing<S(!new), V, E>(decode: Decoding<V>, d: Dispatcher<S, E>,
                                                               on: Handling<S, V, E>, s: S, items: seq<Record>,
                                                               events: seq<V>)
    requires AllPrint(decode, items, events) && Dispatches(decode, d, on) && events != []
    requires var before := Steps(on, s, events[..|events| - 1]); !before.done && before.err.None?
    ensures Consume(Lines(false, d), true, Reader(Framing.EMPTY, s), false, Print(items)).rest == ""
    decreases |items|
  {
    hide Consume, PrintOne, FrameOfItem, Printable;
    assert Printable(items[0]) && decode(FrameOfItem(items[0])) == Ok(events[0]);
    ItemConsumed(d, s, items[0], Print(items[1..]));
    var step := on(s, events[0]);
    assert d(s, FrameOfItem(items[0])) == step;
    if |items| == 1 {
      assert items[1..] == [];
      ConsumeLine(Lines(false, d), true, Reader(Framing.EMPTY, step.state), false, "");
    } else {
      var init := events[..|events| - 1];
      assert init[0] == events[0] && init[1..] == events[1..][..|events| - 2];
      forall k | 0 <= k < |items| - 1
        ensures Printable(items[1..][k]) && decode(FrameOfItem(items[1..][k])) == Ok(events[1..][k])
      {
        assert items[1..][k] == items[k + 1];
      }
      PrintedLeavesNothing(decode, d, on, step.state, items[1..], events[1..]);
    }
  }

  /** However the network cuts printed bytes that end with the end of the stream, for a
      loop that does not stop there. */
  lemma {:induction false} PrintedIsFedLoosely<S(!new), V, E>(decode: Decoding<V>, d: Dispatcher<S, E>,
                                                              on: Handling<S, V, E>, s: S, items: seq<Record>,
                                                              events: seq<V>, cut: seq<string>)
    requires AllPrint(decode, items, events) && Dispatches(decode, d, on) && Join(cut) == Print(items)
    requires events != [] && var before := Steps(on, s, events[..|events| - 1]); !before.done && before.err.None?
    ensures var out := FeedAll(Lines(false, d), false, Reader(Framing.EMPTY, s), "", cut);
            var run := Steps(on, s, events);
            && out.events == run.events && out.err == run.err && out.done == (run.done && run.err.None?)
  {
    hide Consume, FeedAll, Steps, AllPrint, Dispatches, Print;
    var h, r := Lines(false, d), Reader(Framing.EMPTY, s);
    PrintedIsFed(decode, d, on, s, items, events, cut);
    LooseFeedAll(h, r, "", cut);
    var strict := FeedAll(h, true, r, "", cut);
    if strict.done {
      assert "" + Join(cut) == Join(cut);
      ChunkInvariance(h, r, "", cut);
      PrintedLeavesNothing(decode, d, on, s, items, events);
      NothingIsLeft(h, r, "", cut);
      ConsumeLine(h, false, strict.state, true, "");
      assert strict.events + [] == strict.events;
      EndIsNoFailure(h, r, "", cut);
    }
  }
}
