/** What a frame says: the fields of a block, read off its lines. */
module FrameFields {
  import opened Basics
  import opened LineFeed
  import opened Framing

  predicate Begins(text: string, prefix: string) {
    |prefix| <= |text| && text[..|prefix|] == prefix
  }

  /** The payloads of the data lines: what is behind "data:" and one space. */
  function DataIn(lines: seq<string>): seq<string> {
    if lines == [] then []
    else
      var text := TrimCR(lines[|lines| - 1]);
      DataIn(lines[..|lines| - 1]) +
      if !Begins(text, "data:") then [] else [if Begins(text, "data: ") then text[6..] else text[5..]]
  }

  /** The name that the last event line gives, "" without one. */
  function NameIn(lines: seq<string>): string {
    if lines == [] then ""
    else
      var text := TrimCR(lines[|lines| - 1]);
      if Begins(text, "event:") then TrimSpace(text[6..]) else NameIn(lines[..|lines| - 1])
  }

  predicate SaysAnything(lines: seq<string>) {
    exists k | 0 <= k < |lines| :: Begins(TrimCR(lines[k]), "event:") || Begins(TrimCR(lines[k]), "data:")
  }

  /** Payloads one under the other; those before the first that is not empty are lost. */
  function Under(payloads: seq<string>): string {
    if payloads == [] then ""
    else
      var above := Under(payloads[..|payloads| - 1]);
      if above == "" then payloads[|payloads| - 1] else above + "\n" + payloads[|payloads| - 1]
  }

  lemma {:induction false} FieldsSnoc(b: Block, lines: seq<string>, last: string)
    ensures Fields(b, lines + [last]) == Field(Fields(b, lines), TrimCR(last))
    decreases |lines|
  {
    if lines == [] {
      assert [] + [last] == [last] && [last][1..] == [];
    } else {
      assert (lines + [last])[1..] == lines[1..] + [last];
      FieldsSnoc(Field(b, TrimCR(lines[0])), lines[1..], last);
    }
  }

  lemma FieldSays(b: Block, text: string)
    ensures var f := Field(b, text);
            && f.raw == b.raw
            && f.eventType == (if Begins(text, "event:") then TrimSpace(text[6..]) else b.eventType)
            && f.data ==
                 (if !Begins(text, "data:") then b.data
                  else
                    var payload := if Begins(text, "data: ") then text[6..] else text[5..];
                    if b.data == "" then payload else b.data + "\n" + payload)
            && (f.sawFrame <==> b.sawFrame || Begins(text, "event:") || Begins(text, "data:"))
  {
    hide TrimSpace;
    if Begins(text, "data:") {
      assert Begins(text, "data: ") <==> " " <= text[5..];
      assert text[5..] == "" + text[5..] && "" + text[5..] == text[5..];
      if Begins(text, "data: ") { assert text[5..][1..] == text[6..]; }
      assert text[0] == 'd';
    }
    if Begins(text, "event:") { assert text[0] == 'e'; }
  }

  /** A frame has the name its last event line gives and the payloads of its data lines;
      comments and other lines say nothing.  A block is a frame if it says anything. */
  lemma {:induction false} FieldsSay(lines: seq<string>)
    ensures var b := Fields(EMPTY, lines);
            && b.eventType == NameIn(lines) && b.data == Under(DataIn(lines)) && (b.sawFrame <==> SaysAnything(lines))
    decreases |lines|
  {
    if lines != [] {
      hide Field, Fields, TrimCR, TrimSpace, Begins;
      var n := |lines| - 1;
      var init, last := lines[..n], lines[n];
      assert init + [last] == lines;
      FieldsSay(init);
      FieldsSnoc(EMPTY, init, last);
      FieldSays(Fields(EMPTY, init), TrimCR(last));
      var data := DataIn(init);
      if DataIn(lines) != data {
        assert DataIn(lines)[..|data|] == data;
      } else {
        assert data + [] == data;
      }
    }
  }
}
