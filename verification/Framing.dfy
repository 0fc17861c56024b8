/** Server-sent event framing: an incremental framer, a whole-input parser it
    refines under every chunking, and the printer it undoes. */
module Framing {
  import opened Basics
  import opened LineFeed

  datatype Frame = Frame(eventType: string, data: string, raw: string)

  /** The block being collected; raw holds its verbatim bytes when wanted. */
  datatype Block = Block(eventType: string, data: string, sawFrame: bool, raw: string)

  const EMPTY := Block("", "", false, "")

  function Payload(text: string): string {
    TrimPrefix(TrimPrefix(text, "data:"), " ")
  }

  /** A non-blank line: comments and unknown lines leave the fields alone. */
  function Field(b: Block, text: string): Block {
    if ":" <= text then b
    else if "event:" <= text then b.(eventType := TrimSpace(TrimPrefix(text, "event:")), sawFrame := true)
    else if "data:" <= text then
      b.(data := b.data + (if b.data != "" then "\n" else "") + Payload(text), sawFrame := true)
    else b
  }

  /** A blank line ends a block that has seen a field; raw bytes of stray blank
      lines and comments stay pending. */
  function OnLine(wantRaw: bool, b: Block, line: string): (r: (Block, seq<Frame>))
    ensures |r.1| <= 1
  {
    var raw := if wantRaw then b.raw + line + "\n" else b.raw;
    var text := TrimCR(line);
    if text != "" then (Field(b, text).(raw := raw), [])
    else if !b.sawFrame then (b.(raw := raw), [])
    else (EMPTY, [Frame(b.eventType, b.data, raw)])
  }

  function Lines(wantRaw: bool): Handler<Block, Frame> {
    (b, line) => var (b', frames) := OnLine(wantRaw, b, line); Step(b', frames, false, None)
  }

  /** The next complete frame, the block after it and the bytes left over. */
  function NextFrame(wantRaw: bool, b: Block, buf: string): (r: (Block, string, Option<Frame>))
    ensures r.2.Some? ==> |r.1| < |buf|
    decreases |buf|
  {
    match LineEnd(buf)
    case None => (b, buf, None)
    case Some(i) =>
      var (b', frames) := OnLine(wantRaw, b, buf[..i]);
      if frames != [] then (b', buf[i + 1..], Some(frames[0])) else NextFrame(wantRaw, b', buf[i + 1..])
  }

  class SSEFramer {
    const wantRaw: bool
    var buf: string
    var eventType: string
    var data: string
    var sawFrame: bool
    var raw: string

    function Current(): Block
      reads this
    {
      Block(eventType, data, sawFrame, raw)
    }

    constructor (wantRaw: bool)
      ensures this.wantRaw == wantRaw && buf == "" && Current() == EMPTY
    {
      this.wantRaw := wantRaw;
      buf, eventType, data, sawFrame, raw := "", "", "", false, "";
    }

    method Push(chunk: string)
      modifies this`buf
      ensures buf == old(buf) + chunk
    {
      buf := buf + chunk;
    }

    method Line(line: string) returns (frame: Option<Frame>)
      modifies this`eventType, this`data, this`sawFrame, this`raw
      ensures var (b, frames) := OnLine(wantRaw, old(Current()), line);
              Current() == b && frames == match frame case None => [] case Some(f) => [f]
    {
      if wantRaw {
        raw := raw + line + "\n";
      }
      var text := TrimCR(line);
      frame := None;
      if text == "" {
        if !sawFrame { return; } // stray blank line between frames
        frame := Some(Frame(eventType, data, raw));
        eventType, data, sawFrame, raw := "", "", false, "";
      } else if ":" <= text {
      } else if "event:" <= text {
        eventType := TrimSpace(TrimPrefix(text, "event:"));
        sawFrame := true;
      } else if "data:" <= text {
        data := data + (if data != "" then "\n" else "") + Payload(text);
        sawFrame := true;
      }
    }

    method Next() returns (frame: Option<Frame>)
      modifies this
      ensures (Current(), buf, frame) == NextFrame(wantRaw, old(Current()), old(buf))
    {
      hide OnLine;
      ghost var b0, buf0 := Current(), buf;
      while true
        invariant NextFrame(wantRaw, Current(), buf) == NextFrame(wantRaw, b0, buf0)
        decreases |buf|
      {
        var i := LineEnd(buf);
        if i.None? { return None; }
        var line := buf[..i.value];
        buf := buf[i.value + 1..];
        frame := Line(line);
        if frame.Some? { return; }
      }
    }

    /** Every complete frame in the buffer. */
    method Drain() returns (frames: seq<Frame>)
      modifies this
      ensures Fed(Current(), buf, frames, false, None) == Consume(Lines(wantRaw), true, old(Current()), false, old(buf))
    {
      hide OnLine, NextFrame, Consume;
      frames := [];
      ghost var b0, buf0 := Current(), buf;
      while true
        invariant var later := Consume(Lines(wantRaw), true, Current(), false, buf);
                  Consume(Lines(wantRaw), true, b0, false, buf0) == later.(events := frames + later.events)
        decreases |buf|
      {
        ghost var b, bytes := Current(), buf;
        var frame := Next();
        NextIsConsume(wantRaw, b, bytes);
        if frame.None? {
          assert frames + [] == frames;
          return;
        }
        ghost var later := Consume(Lines(wantRaw), true, Current(), false, buf);
        assert frames + ([frame.value] + later.events) == (frames + [frame.value]) + later.events;
        frames := frames + [frame.value];
      }
    }
  }

  /** One Next is the part of the loop up to its first frame. */
  lemma {:induction false} NextIsConsume(wantRaw: bool, b: Block, buf: string)
    ensures var h := Lines(wantRaw);
            var (b', rest, frame) := NextFrame(wantRaw, b, buf);
            var all := Consume(h, true, b, false, buf);
            match frame
            case None => all == Fed(b', rest, [], false, None)
            case Some(f) =>
              var later := Consume(h, true, b', false, rest);
              all == later.(events := [f] + later.events)
    decreases |buf|
  {
    hide OnLine;
    match LineEnd(buf)
    case None =>
    case Some(i) =>
      var h := Lines(wantRaw);
      var (b', frames) := OnLine(wantRaw, b, buf[..i]);
      assert h(b, buf[..i]) == Step(b', frames, false, None);
      if frames == [] {
        NextIsConsume(wantRaw, b', buf[i + 1..]);
        var later := Consume(h, true, b', false, buf[i + 1..]);
        assert [] + later.events == later.events;
      } else {
        assert frames == [frames[0]];
      }
  }

  // ---- the whole-input parser ----

  /** The complete lines of a text, without their terminators. */
  function SplitLines(s: string): seq<string>
    decreases |s|
  {
    match LineEnd(s)
    case None => []
    case Some(i) => [s[..i]] + SplitLines(s[i + 1..])
  }

  function FirstBlank(lines: seq<string>): (n: nat)
    ensures n <= |lines|
    ensures n < |lines| ==> TrimCR(lines[n]) == ""
    ensures forall k | 0 <= k < n :: TrimCR(lines[k]) != ""
  {
    if lines == [] || TrimCR(lines[0]) == "" then 0 else 1 + FirstBlank(lines[1..])
  }

  function Unlines(lines: seq<string>): string {
    if lines == [] then "" else lines[0] + "\n" + Unlines(lines[1..])
  }

  /** All fields of a block at once. */
  function Fields(b: Block, lines: seq<string>): Block
    decreases |lines|
  {
    if lines == [] then b
    else Fields(Field(b, TrimCR(lines[0])), lines[1..])
  }

  /** Blocks are the runs between blank lines; those with an event or data line
      are frames.  carried is the raw text of what came before without one. */
  function Parse(wantRaw: bool, carried: string, lines: seq<string>): seq<Frame>
    decreases |lines|
  {
    var n := FirstBlank(lines);
    if n == |lines| then []
    else
      var block := Fields(EMPTY, lines[..n]);
      var raw := if wantRaw then carried + Unlines(lines[..n + 1]) else "";
      if block.sawFrame then [Frame(block.eventType, block.data, raw)] + Parse(wantRaw, "", lines[n + 1..])
      else Parse(wantRaw, raw, lines[n + 1..])
  }

  function Fold(wantRaw: bool, b: Block, lines: seq<string>): seq<Frame>
    decreases |lines|
  {
    if lines == [] then []
    else
      var (b', frames) := OnLine(wantRaw, b, lines[0]);
      frames + Fold(wantRaw, b', lines[1..])
  }

  lemma {:induction false} ConsumeIsFold(wantRaw: bool, b: Block, buf: string)
    ensures Consume(Lines(wantRaw), true, b, false, buf).events == Fold(wantRaw, b, SplitLines(buf))
    decreases |buf|
  {
    match LineEnd(buf)
    case None =>
    case Some(i) =>
      var (b', frames) := OnLine(wantRaw, b, buf[..i]);
      assert Lines(wantRaw)(b, buf[..i]) == Step(b', frames, false, None);
      ConsumeIsFold(wantRaw, b', buf[i + 1..]);
      assert SplitLines(buf)[1..] == SplitLines(buf[i + 1..]);
  }

  lemma FieldKeepsRaw(b: Block, text: string, raw: string)
    ensures Field(b.(raw := raw), text) == Field(b, text).(raw := raw)
  {
  }

  function Keep(wantRaw: bool, raw: string, lines: seq<string>): string {
    if wantRaw then raw + Unlines(lines) else raw
  }

  lemma KeepFirst(wantRaw: bool, raw: string, lines: seq<string>)
    requires lines != []
    ensures Keep(wantRaw, Keep(wantRaw, raw, lines[..1]), lines[1..]) == Keep(wantRaw, raw, lines)
    ensures Keep(wantRaw, raw, lines[..1]) == if wantRaw then raw + lines[0] + "\n" else raw
  {
    assert lines[..1][1..] == [] && Unlines(lines[..1]) == lines[0] + "\n" + "";
    assert raw + (lines[0] + "\n" + "") == raw + lines[0] + "\n";
    assert (raw + lines[0] + "\n") + Unlines(lines[1..]) == raw + (lines[0] + "\n" + Unlines(lines[1..]));
  }

  /** Inside a block only the fields and the raw bytes move. */
  lemma {:induction false} FoldInsideBlock(wantRaw: bool, b: Block, lines: seq<string>, rest: seq<string>)
    requires forall k | 0 <= k < |lines| :: TrimCR(lines[k]) != ""
    ensures Fold(wantRaw, b, lines + rest) == Fold(wantRaw, Fields(b, lines).(raw := Keep(wantRaw, b.raw, lines)), rest)
    decreases |lines|
  {
    hide Field, TrimCR;
    if lines == [] {
      assert lines + rest == rest;
      assert b.raw + "" == b.raw;
      assert b.(raw := b.raw) == b;
    } else {
      var text := TrimCR(lines[0]);
      var (b', frames) := OnLine(wantRaw, b, lines[0]);
      assert (lines + rest)[1..] == lines[1..] + rest;
      FoldInsideBlock(wantRaw, b', lines[1..], rest);
      KeepFirst(wantRaw, b.raw, lines);
      FieldsKeepRaw(Field(b, text), lines[1..], b'.raw);
      assert [] + Fold(wantRaw, b', lines[1..] + rest) == Fold(wantRaw, b', lines[1..] + rest);
    }
  }

  lemma {:induction false} FieldsKeepRaw(b: Block, lines: seq<string>, raw: string)
    ensures Fields(b.(raw := raw), lines) == Fields(b, lines).(raw := raw)
    decreases |lines|
  {
    if lines != [] {
      FieldKeepsRaw(b, TrimCR(lines[0]), raw);
      FieldsKeepRaw(Field(b, TrimCR(lines[0])), lines[1..], raw);
    }
  }

  lemma {:induction false} UnlinesSnoc(lines: seq<string>, last: string)
    ensures Unlines(lines + [last]) == Unlines(lines) + last + "\n"
    decreases |lines|
  {
    if lines == [] {
      assert [] + [last] == [last];
      assert Unlines([last]) == last + "\n" + "";
    } else {
      assert (lines + [last])[1..] == lines[1..] + [last];
      UnlinesSnoc(lines[1..], last);
    }
  }

  lemma {:induction false} FieldsWithout(b: Block, lines: seq<string>)
    requires !Fields(b, lines).sawFrame
    ensures Fields(b, lines) == b
    decreases |lines|
  {
    if lines != [] {
      var b' := Field(b, TrimCR(lines[0]));
      if b'.sawFrame { SawFrameStays(b', lines[1..]); }
      FieldsWithout(b', lines[1..]);
    }
  }

  lemma {:induction false} SawFrameStays(b: Block, lines: seq<string>)
    requires b.sawFrame
    ensures Fields(b, lines).sawFrame
    decreases |lines|
  {
    if lines != [] { SawFrameStays(Field(b, TrimCR(lines[0])), lines[1..]); }
  }

  /** The blank line that ends a block. */
  lemma BlankLine(wantRaw: bool, b: Block, blank: string, rest: seq<string>)
    requires TrimCR(blank) == ""
    ensures var raw := if wantRaw then b.raw + blank + "\n" else b.raw;
            Fold(wantRaw, b, [blank] + rest) ==
              if b.sawFrame then [Frame(b.eventType, b.data, raw)] + Fold(wantRaw, EMPTY, rest)
              else Fold(wantRaw, b.(raw := raw), rest)
  {
    assert ([blank] + rest)[1..] == rest;
    assert [] + Fold(wantRaw, OnLine(wantRaw, b, blank).0, rest) == Fold(wantRaw, OnLine(wantRaw, b, blank).0, rest);
  }

  /** Folding line by line from an empty block is parsing block by block. */
  lemma {:induction false} FoldIsParse(wantRaw: bool, carried: string, lines: seq<string>)
    requires !wantRaw ==> carried == ""
    ensures Fold(wantRaw, EMPTY.(raw := carried), lines) == Parse(wantRaw, carried, lines)
    decreases |lines|
  {
    hide OnLine, Field, Fold, TrimCR;
    var n := FirstBlank(lines);
    var start := EMPTY.(raw := carried);
    var inner, rest := lines[..n], lines[n..];
    assert lines == inner + rest;
    FoldInsideBlock(wantRaw, start, inner, rest);
    FieldsKeepRaw(EMPTY, inner, carried);
    var block := Fields(EMPTY, inner);
    var b := block.(raw := Keep(wantRaw, carried, inner));
    assert Fold(wantRaw, start, lines) == Fold(wantRaw, b, rest);
    if n == |lines| {
      FoldNothing(wantRaw, b);
    } else {
      var after := lines[n + 1..];
      assert rest == [lines[n]] + after;
      BlankLine(wantRaw, b, lines[n], after);
      assert lines[..n + 1] == inner + [lines[n]];
      UnlinesSnoc(inner, lines[n]);
      var raw := if wantRaw then carried + Unlines(lines[..n + 1]) else "";
      assert wantRaw ==> (carried + Unlines(inner)) + lines[n] + "\n" == raw;
      if block.sawFrame {
        FoldIsParse(wantRaw, "", after);
        assert EMPTY.(raw := "") == EMPTY;
      } else {
        FieldsWithout(EMPTY, inner);
        FoldIsParse(wantRaw, raw, after);
      }
    }
  }

  lemma FoldNothing(wantRaw: bool, b: Block)
    ensures Fold(wantRaw, b, []) == []
  {
  }

  /** The framer yields the frames of the whole-input parser, however the bytes
      are cut into chunks. */
  lemma FramerRefinesParser(wantRaw: bool, chunks: seq<string>)
    ensures FeedAll(Lines(wantRaw), true, EMPTY, "", chunks).events == Parse(wantRaw, "", SplitLines(Join(chunks)))
  {
    ChunkInvariance(Lines(wantRaw), EMPTY, "", chunks);
    assert "" + Join(chunks) == Join(chunks);
    ConsumeIsFold(wantRaw, EMPTY, Join(chunks));
    assert EMPTY.(raw := "") == EMPTY;
    FoldIsParse(wantRaw, "", SplitLines(Join(chunks)));
  }

  // ---- no byte is lost ----

  function Raws(frames: seq<Frame>): string {
    if frames == [] then "" else frames[0].raw + Raws(frames[1..])
  }

  lemma {:induction false} RawsAppend(a: seq<Frame>, b: seq<Frame>)
    ensures Raws(a + b) == Raws(a) + Raws(b)
    decreases |a|
  {
    if a == [] {
      assert a + b == b;
    } else {
      assert (a + b)[1..] == a[1..] + b;
      RawsAppend(a[1..], b);
    }
  }

  lemma LineKeepsBytes(b: Block, line: string)
    ensures var (b', frames) := OnLine(true, b, line);
            Raws(frames) + b'.raw == b.raw + line + "\n"
  {
    var (b', frames) := OnLine(true, b, line);
    if frames != [] {
      assert frames[1..] == [];
      assert Raws(frames) == frames[0].raw + "";
    }
  }

  lemma {:induction false} NoByteLost(b: Block, buf: string)
    ensures var r := Consume(Lines(true), true, b, false, buf);
            Raws(r.events) + r.state.raw + r.rest == b.raw + buf
    decreases |buf|
  {
    hide OnLine, Raws;
    RawsNothing();
    match LineEnd(buf)
    case None => assert "" + b.raw + buf == b.raw + buf;
    case Some(i) =>
      var line, rest := buf[..i], buf[i + 1..];
      var (b', frames) := OnLine(true, b, line);
      assert Lines(true)(b, line) == Step(b', frames, false, None);
      NoByteLost(b', rest);
      LineKeepsBytes(b, line);
      var later := Consume(Lines(true), true, b', false, rest);
      RawsAppend(frames, later.events);
      assert buf == line + "\n" + rest;
      Regroup(Raws(frames), Raws(later.events), later.state.raw, later.rest, b'.raw, rest, b.raw, line);
  }

  lemma Regroup(first: string, more: string, pending: string, left: string, raw': string, rest: string, raw: string,
                line: string)
    requires more + pending + left == raw' + rest && first + raw' == raw + line + "\n"
    ensures (first + more) + pending + left == raw + (line + "\n" + rest)
  {
    assert (first + more) + pending + left == first + (more + pending + left);
    assert first + (raw' + rest) == (first + raw') + rest;
    assert (raw + line + "\n") + rest == raw + (line + "\n" + rest);
  }

  lemma RawsNothing()
    ensures Raws([]) == ""
  {
  }

  /** In raw mode the emitted blocks, the pending block and the buffer together
      are exactly the bytes pushed, under every chunking. */
  lemma RawBytesConserved(chunks: seq<string>)
    ensures var r := FeedAll(Lines(true), true, EMPTY, "", chunks);
            Raws(r.events) + r.state.raw + r.rest == Join(chunks)
  {
    ChunkInvariance(Lines(true), EMPTY, "", chunks);
    NeverStops(true, EMPTY, "", chunks);
    assert "" + Join(chunks) == Join(chunks);
    NoByteLost(EMPTY, Join(chunks));
  }

  lemma {:induction false} ConsumeNeverStops(wantRaw: bool, b: Block, buf: string)
    ensures !Consume(Lines(wantRaw), true, b, false, buf).Stopped()
    decreases |buf|
  {
    hide OnLine;
    match LineEnd(buf)
    case None =>
    case Some(i) => ConsumeNeverStops(wantRaw, OnLine(wantRaw, b, buf[..i]).0, buf[i + 1..]);
  }

  lemma {:induction false} NeverStops(wantRaw: bool, b: Block, rest: string, chunks: seq<string>)
    ensures !FeedAll(Lines(wantRaw), true, b, rest, chunks).Stopped()
    decreases |chunks|
  {
    if chunks != [] {
      var first := Consume(Lines(wantRaw), true, b, false, rest + chunks[0]);
      ConsumeNeverStops(wantRaw, b, rest + chunks[0]);
      NeverStops(wantRaw, first.state, first.rest, chunks[1..]);
    }
  }

  // ---- parsing undoes printing ----

  /** One rendered event: its name and its encoded payload. */
  datatype Printed = Printed(name: string, payload: string)

  function SSEEvent(e: Printed): string {
    "event: " + e.name + "\ndata: " + e.payload + "\n\n"
  }

  function PrintAll(events: seq<Printed>): string {
    if events == [] then "" else SSEEvent(events[0]) + PrintAll(events[1..])
  }

  /** Names and JSON payloads hold no line break. */
  predicate OneLine(e: Printed) {
    '\n' !in e.name && '\n' !in e.payload
  }

  function Read(frames: seq<Frame>): (r: seq<Printed>)
    ensures |r| == |frames|
  {
    seq(|frames|, k requires 0 <= k < |frames| => Printed(frames[k].eventType, frames[k].data))
  }

  function Trimmed(e: Printed): Printed {
    Printed(TrimSpace(e.name), TrimCR(e.payload))
  }

  function TrimmedAll(events: seq<Printed>): (r: seq<Printed>)
    ensures |r| == |events|
  {
    seq(|events|, k requires 0 <= k < |events| => Trimmed(events[k]))
  }

  lemma {:induction false} TrimLeftSnoc(s: string, c: char)
    requires IsSpace(c)
    ensures TrimLeft(s + [c]) == (if TrimLeft(s) == "" then "" else TrimLeft(s) + [c])
    decreases |s|
  {
    if s == "" {
      assert s + [c] == [c] && [c][1..] == "";
    } else {
      assert (s + [c])[1..] == s[1..] + [c];
      if IsSpace(s[0]) { TrimLeftSnoc(s[1..], c); }
    }
  }

  lemma TrimSpaceIgnoresCR(s: string)
    ensures TrimSpace(TrimCR(s)) == TrimSpace(s)
  {
    if TrimCR(s) != s {
      var init, c := s[..|s| - 1], s[|s| - 1];
      assert s == init + [c];
      TrimLeftSnoc(init, c);
      if TrimLeft(init) != "" {
        assert (TrimLeft(init) + [c])[..|TrimLeft(init)|] == TrimLeft(init);
      }
    }
  }

  lemma EventLine(name: string, b: Block)
    requires b == EMPTY
    ensures OnLine(false, b, "event: " + name) == (b.(eventType := TrimSpace(name), sawFrame := true), [])
  {
    var line := "event: " + name;
    var text := TrimCR(line);
    if name != "" && name[|name| - 1] == '\r' {
      assert text == "event: " + name[..|name| - 1];
    }
    assert text == "event: " + TrimCR(name);
    assert text[..6] == "event:" && text[0] == 'e';
    assert text[6..] == " " + TrimCR(name);
    assert (" " + TrimCR(name))[1..] == TrimCR(name);
    TrimSpaceIgnoresCR(name);
  }

  lemma DataLine(payload: string, b: Block)
    requires b.data == ""
    ensures OnLine(false, b, "data: " + payload) == (b.(data := TrimCR(payload), sawFrame := true), [])
  {
    var line := "data: " + payload;
    var text := TrimCR(line);
    if payload != "" && payload[|payload| - 1] == '\r' {
      assert text == "data: " + payload[..|payload| - 1];
    }
    assert text == "data: " + TrimCR(payload);
    assert text[0] == 'd' && text[..5] == "data:";
    assert text[5..] == " " + TrimCR(payload);
    assert (" " + TrimCR(payload))[..1] == " " && (" " + TrimCR(payload))[1..] == TrimCR(payload);
    assert "" + "" + TrimCR(payload) == TrimCR(payload);
  }

  lemma SplitFirst(line: string, rest: string)
    requires '\n' !in line
    ensures SplitLines(line + "\n" + rest) == [line] + SplitLines(rest)
  {
    var s := line + "\n" + rest;
    assert s[|line|] == '\n';
    LineEndIs(s, 0, |line|);
    assert s[..|line|] == line && s[|line| + 1..] == rest;
  }

  lemma EventLines(e: Printed, rest: string)
    requires OneLine(e)
    ensures SplitLines(SSEEvent(e) + rest) ==
              ["event: " + e.name] + (["data: " + e.payload] + ([""] + SplitLines(rest)))
  {
    hide SplitLines;
    var l1, l2 := "event: " + e.name, "data: " + e.payload;
    var r3 := "" + "\n" + rest;
    var r2 := l2 + "\n" + r3;
    assert SSEEvent(e) + rest == l1 + "\n" + r2;
    SplitFirst(l1, r2);
    SplitFirst(l2, r3);
    SplitFirst("", rest);
  }

  lemma FoldFirst(b: Block, line: string, rest: seq<string>)
    ensures var (b', frames) := OnLine(false, b, line);
            Fold(false, b, [line] + rest) == frames + Fold(false, b', rest)
  {
    assert ([line] + rest)[1..] == rest;
  }

  lemma PrintedFrame(e: Printed, rest: seq<string>)
    ensures Fold(false, EMPTY, ["event: " + e.name] + (["data: " + e.payload] + ([""] + rest))) ==
            [Frame(TrimSpace(e.name), TrimCR(e.payload), "")] + Fold(false, EMPTY, rest)
  {
    hide Fold, TrimSpace;
    var l1, l2 := "event: " + e.name, "data: " + e.payload;
    EventLine(e.name, EMPTY);
    var b1 := EMPTY.(eventType := TrimSpace(e.name), sawFrame := true);
    DataLine(e.payload, b1);
    var b2 := b1.(data := TrimCR(e.payload));
    assert OnLine(false, b2, "") == (EMPTY, [Frame(b2.eventType, b2.data, "")]);
    FoldFirst(EMPTY, l1, [l2] + ([""] + rest));
    FoldFirst(b1, l2, [""] + rest);
    FoldFirst(b2, "", rest);
    var all := Fold(false, b2, [""] + rest);
    assert [] + ([] + all) == all;
  }

  lemma ReadCons(e: Printed, frame: Frame, later: seq<Frame>, events: seq<Printed>)
    requires Printed(frame.eventType, frame.data) == Trimmed(e)
    requires Read(later) == TrimmedAll(events)
    ensures Read([frame] + later) == TrimmedAll([e] + events)
  {
    assert Read([frame] + later) == [Trimmed(e)] + Read(later);
    assert TrimmedAll([e] + events) == [Trimmed(e)] + TrimmedAll(events);
  }

  lemma {:induction false} PrintedFolds(events: seq<Printed>)
    requires forall k | 0 <= k < |events| :: OneLine(events[k])
    ensures Read(Fold(false, EMPTY, SplitLines(PrintAll(events)))) == TrimmedAll(events)
    decreases |events|
  {
    if events != [] {
      hide Fold, SplitLines, TrimSpace, SSEEvent, Read, TrimmedAll, TrimCR;
      var e, rest := events[0], PrintAll(events[1..]);
      EventLines(e, rest);
      PrintedFrame(e, SplitLines(rest));
      PrintedFolds(events[1..]);
      assert events == [e] + events[1..];
      ReadCons(e, Frame(TrimSpace(e.name), TrimCR(e.payload), ""), Fold(false, EMPTY, SplitLines(rest)), events[1..]);
    }
  }

  /** Printing a list of events and parsing the bytes in any chunks gives the
      list back, exactly when every name is trimmed and no payload ends in CR. */
  lemma {:induction false} ParsingUndoesPrinting(events: seq<Printed>, chunks: seq<string>)
    requires forall k | 0 <= k < |events| :: OneLine(events[k])
    requires Join(chunks) == PrintAll(events)
    ensures var read := Read(FeedAll(Lines(false), true, EMPTY, "", chunks).events);
            && read == TrimmedAll(events)
            && (read == events <==>
                  forall k | 0 <= k < |events| ::
                    TrimSpace(events[k].name) == events[k].name && TrimCR(events[k].payload) == events[k].payload)
  {
    ChunkInvariance(Lines(false), EMPTY, "", chunks);
    assert "" + Join(chunks) == Join(chunks);
    ConsumeIsFold(false, EMPTY, Join(chunks));
    PrintedFolds(events);
    var read := Read(FeedAll(Lines(false), true, EMPTY, "", chunks).events);
    if read == events {
      forall k | 0 <= k < |events|
        ensures TrimSpace(events[k].name) == events[k].name && TrimCR(events[k].payload) == events[k].payload
      {
        assert read[k] == Trimmed(events[k]);
      }
    }
    if forall k | 0 <= k < |events| ::
      TrimSpace(events[k].name) == events[k].name && TrimCR(events[k].payload) == events[k].payload {
      assert forall k | 0 <= k < |events| :: read[k] == events[k];
    }
  }
}
