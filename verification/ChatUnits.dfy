/** A Chat Completions stream as the list of things it says, in order, and what
    those amount to: the text, the tool calls in order of first arrival with
    their complete arguments, the finish reason and the usage. */
module ChatUnits {
  import opened Basics
  import opened ChatChunks

  datatype Unit =
    | Say(text: string)
    | Entry(call: ToolCallDelta)
    | Finish(reason: string)

  function Entries(calls: seq<ToolCallDelta>): seq<Unit> {
    if calls == [] then [] else Entries(calls[..|calls| - 1]) + [Entry(calls[|calls| - 1])]
  }

  function ChoiceUnits(choice: Choice): seq<Unit> {
    (if choice.content != "" then [Say(choice.content)] else [])
    + Entries(choice.toolCalls)
    + (if choice.finish != "" then [Finish(choice.finish)] else [])
  }

  function ChunkUnits(chunk: Chunk): seq<Unit> {
    if chunk.choices == [] then [] else ChoiceUnits(chunk.choices[0])
  }

  function Units(chunks: seq<Chunk>): seq<Unit> {
    if chunks == [] then [] else Units(chunks[..|chunks| - 1]) + ChunkUnits(chunks[|chunks| - 1])
  }

  // ---- what they amount to ----

  function Spoken(units: seq<Unit>): string {
    if units == [] then ""
    else Spoken(units[..|units| - 1]) + match units[|units| - 1] case Say(t) => t case _ => ""
  }

  /** Upstream tool indexes in order of first appearance. */
  function Seen(units: seq<Unit>): seq<int> {
    if units == [] then []
    else
      var seen := Seen(units[..|units| - 1]);
      match units[|units| - 1]
      case Entry(tc) => if tc.index in seen then seen else seen + [tc.index]
      case _ => seen
  }

  /** All argument fragments of one upstream index, joined. */
  function Arguments(units: seq<Unit>, index: int): string {
    if units == [] then ""
    else
      Arguments(units[..|units| - 1], index) +
      match units[|units| - 1] case Entry(tc) => (if tc.index == index then tc.arguments else "") case _ => ""
  }

  /** The first entry of an upstream index, which names the call. */
  function Opening(units: seq<Unit>, index: int): ToolCallDelta
    requires index in Seen(units)
  {
    var init := units[..|units| - 1];
    if index in Seen(init) then Opening(init, index) else units[|units| - 1].call
  }

  // ---- resuming a call ----

  predicate Finished(units: seq<Unit>) {
    exists k | 0 <= k < |units| :: units[k].Finish?
  }

  /** The j-th unit ends whatever block was open before it: text, the first
      entry of another call, or the finish reason. */
  predicate Interrupts(units: seq<Unit>, j: nat)
    requires j < |units|
  {
    match units[j]
    case Say(_) => true
    case Entry(tc) => tc.index !in Seen(units[..j])
    case Finish(_) => !Finished(units[..j])
  }

  /** The j-th unit came between the k-th, an argument fragment, and the first
      entry of the k-th unit's call. */
  predicate ComesBetween(units: seq<Unit>, j: nat, k: nat)
    requires j < k < |units|
  {
    && units[k].Entry? && units[k].call.arguments != ""
    && units[k].call.index in Seen(units[..j]) && Interrupts(units, j)
  }

  /** The upstream sends more arguments for a call after something else began. */
  ghost predicate Resumes(units: seq<Unit>) {
    exists j, k | 0 <= j < k < |units| :: ComesBetween(units, j, k)
  }

  lemma UnitsSnoc(units: seq<Unit>, u: Unit)
    ensures var all := units + [u];
            && Spoken(all) == Spoken(units) + (match u case Say(t) => t case _ => "")
            && (u.Entry? ==>
                Seen(all) == if u.call.index in Seen(units) then Seen(units) else Seen(units) + [u.call.index])
            && (!u.Entry? ==> Seen(all) == Seen(units))
            && (Finished(all) <==> Finished(units) || u.Finish?)
    ensures forall i :: Arguments(units + [u], i) == Arguments(units, i) +
              (match u case Entry(tc) => (if tc.index == i then tc.arguments else "") case _ => "")
    ensures forall i | i in Seen(units) :: Opening(units + [u], i) == Opening(units, i)
    ensures u.Entry? && u.call.index !in Seen(units) ==> Opening(units + [u], u.call.index) == u.call
  {
    var all := units + [u];
    assert all[..|units|] == units;
    if Finished(units) {
      var k :| 0 <= k < |units| && units[k].Finish?;
      assert all[k].Finish?;
    }
    if u.Finish? { assert all[|units|].Finish?; }
  }

  lemma {:induction false} SeenOnce(units: seq<Unit>)
    ensures forall i, j | 0 <= i < j < |Seen(units)| :: Seen(units)[i] != Seen(units)[j]
    decreases |units|
  {
    if units != [] { SeenOnce(units[..|units| - 1]); }
  }

  lemma {:induction false} SeenIsKept(units: seq<Unit>, k: nat)
    requires k <= |units|
    ensures forall i | i in Seen(units[..k]) :: i in Seen(units)
    decreases |units|
  {
    if k == |units| {
      assert units[..k] == units;
    } else {
      var init := units[..|units| - 1];
      SeenIsKept(init, k);
      assert init[..k] == units[..k];
    }
  }

  // ---- the call whose block is open ----

  /** The call whose block is open: nothing came after its first entry. */
  function Current(units: seq<Unit>): Option<int> {
    if units == [] then None
    else
      var init := units[..|units| - 1];
      match units[|units| - 1]
      case Say(_) => None
      case Entry(tc) => if tc.index in Seen(init) then Current(init) else Some(tc.index)
      case Finish(_) => if Finished(init) then Current(init) else None
  }

  /** Whether any block is open: text or a new call opens one, the finish reason closes it. */
  function LeftOpen(units: seq<Unit>): bool {
    if units == [] then false
    else
      var init := units[..|units| - 1];
      match units[|units| - 1]
      case Say(_) => true
      case Entry(tc) => tc.index !in Seen(init) || LeftOpen(init)
      case Finish(_) => Finished(init) && LeftOpen(init)
  }

  /** Some unit of the list ended the block of the given call. */
  ghost predicate Ended(units: seq<Unit>, index: int) {
    exists j | 0 <= j < |units| :: index in Seen(units[..j]) && Interrupts(units, j)
  }

  lemma {:induction false} CurrentIs(units: seq<Unit>, index: int)
    requires index in Seen(units)
    ensures Current(units) == Some(index) <==> !Ended(units, index)
    decreases |units|
  {
    var n := |units| - 1;
    var init := units[..n];
    forall j | 0 <= j < n ensures init[..j] == units[..j] && (Interrupts(init, j) <==> Interrupts(units, j)) {
      assert init[..j] == units[..j];
    }
    if Ended(units, index) {
      var j :| 0 <= j < |units| && index in Seen(units[..j]) && Interrupts(units, j);
      if j < n {
        assert index in Seen(init[..j]) && Interrupts(init, j);
        SeenIsKept(init, j);
      }
    }
    if index in Seen(init) {
      CurrentIs(init, index);
      if Ended(init, index) {
        var j :| 0 <= j < n && index in Seen(init[..j]) && Interrupts(init, j);
        assert index in Seen(units[..j]) && Interrupts(units, j);
      }
      if Interrupts(units, n) { assert units[..n] == init; }
      CurrentWasSeen(init);
    }
  }

  lemma {:induction false} CurrentWasSeen(units: seq<Unit>)
    ensures Current(units).Some? ==> Current(units).value in Seen(units)
    decreases |units|
  {
    if units != [] { CurrentWasSeen(units[..|units| - 1]); }
  }

  /** Adding a unit resumes an earlier call exactly when it is an argument
      fragment of a call other than the one whose block is then open. */
  lemma ResumesSnoc(units: seq<Unit>, u: Unit)
    ensures Resumes(units + [u]) <==>
            (Resumes(units) || (u.Entry? && u.call.arguments != "" && Current(units + [u]) != Some(u.call.index)))
  {
    var n := |units|;
    var all := units + [u];
    forall j | 0 <= j < n ensures all[..j] == units[..j] && (Interrupts(all, j) <==> Interrupts(units, j)) {
      assert all[..j] == units[..j];
    }
    if Resumes(units) {
      var j, k :| 0 <= j < k < n && ComesBetween(units, j, k);
      assert ComesBetween(all, j, k);
    }
    assert all[..n] == units;
    if u.Entry? && u.call.arguments != "" {
      var i := u.call.index;
      UnitsSnoc(units, u);
      CurrentIs(all, i);
      if Ended(all, i) {
        var j :| 0 <= j < |all| && i in Seen(all[..j]) && Interrupts(all, j);
        if j < n {
          assert ComesBetween(all, j, n);
        }
      }
    }
    if Resumes(all) {
      var j, k :| 0 <= j < k < |all| && ComesBetween(all, j, k);
      if k < n {
        assert ComesBetween(units, j, k);
      } else {
        assert Ended(all, u.call.index);
      }
    }
  }
}
