/** Streaming the input of a custom tool: however its {"input": v} arguments are
    cut into fragments, the deltas sent to the client spell v, and the wrapper
    never reaches it. */
module CustomInput {
  import opened Basics
  import opened ResponseTools
  import opened Wire
  import Json
  import ToolIdentities

  datatype Progress = Progress(accumulated: string, emitted: nat, events: seq<Event>)

  /** The converter's treatment of the fragments of one call, as they arrive. */
  function Feed(names: ToolNames, itemId: string, index: int, name: string, fragments: seq<string>): Progress {
    if fragments == [] then Progress("", 0, [])
    else
      var f := fragments[|fragments| - 1];
      var before := Feed(names, itemId, index, name, fragments[..|fragments| - 1]);
      var accumulated := before.accumulated + f;
      var (events, emitted) := ToolDelta(names, itemId, index, name, f, accumulated, before.emitted);
      Progress(accumulated, emitted, before.events + events)
  }

  /** What a client reads off the custom input deltas. */
  function Input(events: seq<Event>): string {
    if events == [] then ""
    else
      Input(events[..|events| - 1]) +
      match events[|events| - 1]
      case CustomInputDelta(_, _, delta) => delta
      case _ => ""
  }

  /** The input of the shortest accumulation that decodes, or "" if none does. */
  function FirstInput(fragments: seq<string>): string {
    if fragments == [] then ""
    else
      var init := fragments[..|fragments| - 1];
      if HasInput(init) then FirstInput(init)
      else match Json.WrappedInput(Concat(fragments))
        case Some(v) => v
        case None => ""
  }

  /** Some accumulation of the fragments decodes. */
  predicate HasInput(fragments: seq<string>) {
    exists n | 0 <= n <= |fragments| :: Json.WrappedInput(Concat(fragments[..n])).Some?
  }

  lemma InputSnoc(events: seq<Event>, more: seq<Event>)
    requires |more| <= 1
    ensures Input(events + more) == Input(events) + Input(more)
  {
    if more == [] {
      assert events + more == events;
    } else {
      assert (events + more)[..|events|] == events;
      assert more[..0] == [];
    }
  }

  lemma {:induction false} ConcatSplit(fragments: seq<string>, n: nat)
    requires n <= |fragments|
    ensures Concat(fragments[..n]) <= Concat(fragments)
    decreases |fragments|
  {
    if n < |fragments| {
      var init := fragments[..|fragments| - 1];
      assert init[..n] == fragments[..n];
      ConcatSplit(init, n);
    } else {
      assert fragments[..n] == fragments;
    }
  }

  /** Once an accumulation has decoded, a longer one decodes to the same input or not at all. */
  lemma {:induction false} FirstInputIsFinal(fragments: seq<string>, later: string)
    requires HasInput(fragments) && Concat(fragments) <= later
    ensures Json.WrappedInput(later) in {None, Some(FirstInput(fragments))}
    ensures |FirstInput(fragments)| < |Concat(fragments)|
    decreases |fragments|
  {
    var init := fragments[..|fragments| - 1];
    if fragments != [] && HasInput(init) {
      FirstInputIsFinal(init, later);
      assert |Concat(init)| <= |Concat(fragments)|;
    } else {
      var n :| 0 <= n <= |fragments| && Json.WrappedInput(Concat(fragments[..n])).Some?;
      assert n == |fragments| by {
        assert forall m | 0 <= m <= |init| :: init[..m] == fragments[..m];
      }
      assert fragments[..n] == fragments;
      var doc := Concat(fragments);
      Json.WrappedInputIsShorter(doc);
      assert later == doc + later[|doc|..];
      if Json.Decode(later).Some? { Json.WrappedInputIsFinal(doc, later[|doc|..]); }
    }
  }

  /** For every cutting into fragments, the deltas spell exactly the input of
      the first accumulation that decodes. */
  lemma {:induction false} DeltasSpellFirstInput(names: ToolNames, itemId: string, index: int, name: string,
                                                 fragments: seq<string>)
    requires Identity(names, name).custom && names.unwrap == Json.UnwrapCustomToolInput
    ensures var p := Feed(names, itemId, index, name, fragments);
            && p.accumulated == Concat(fragments)
            && Input(p.events) == FirstInput(fragments)
            && p.emitted == |FirstInput(fragments)|
    decreases |fragments|
  {
    if fragments == [] {
    } else {
      var init, f := fragments[..|fragments| - 1], fragments[|fragments| - 1];
      var before := Feed(names, itemId, index, name, init);
      DeltasSpellFirstInput(names, itemId, index, name, init);
      var doc := Concat(fragments);
      var (events, _) := ToolDelta(names, itemId, index, name, f, doc, before.emitted);
      InputSnoc(before.events, events);
      assert events != [] ==> events[..0] == [];
      if Json.WrappedInput(doc).Some? { Json.WrappedInputIsShorter(doc); }
      if HasInput(init) {
        FirstInputIsFinal(init, doc);
      } else {
        NoInputYet(init);
      }
    }
  }

  lemma {:induction false} NoInputYet(fragments: seq<string>)
    requires !HasInput(fragments)
    ensures FirstInput(fragments) == ""
  {
    if fragments != [] {
      var init := fragments[..|fragments| - 1];
      assert fragments[..|fragments|] == fragments;
      forall n | 0 <= n <= |init| ensures Json.WrappedInput(Concat(init[..n])).None? {
        assert init[..n] == fragments[..n];
      }
    }
  }

  // ---- the input in the completion event ----

  lemma {:induction false} TrimLeftStartsAt(s: string, i: nat)
    requires i < |s| && !IsSpace(s[i]) && forall k | 0 <= k < i :: IsSpace(s[k])
    ensures TrimLeft(s) == s[i..]
    decreases i
  {
    if i > 0 {
      TrimLeftStartsAt(s[1..], i - 1);
      assert s[1..][i - 1..] == s[i..];
    }
  }

  lemma {:induction false} TrimRightKeepsHead(s: string)
    requires s != "" && !IsSpace(s[0])
    ensures TrimRight(s) != "" && TrimRight(s)[0] == s[0]
    decreases |s|
  {
    if IsSpace(s[|s| - 1]) { TrimRightKeepsHead(s[..|s| - 1]); }
  }

  lemma ObjectsAreNotDefaulted(doc: string, args: string)
    requires Json.WrappedInput(doc).Some? && doc <= args
    ensures DefaultArgs(args) == args
  {
    var i := Json.SkipWs(doc, 0);
    assert doc[i] == '{';
    assert forall k | 0 <= k < |doc| :: args[k] == doc[k];
    TrimLeftStartsAt(args, i);
    TrimRightKeepsHead(args[i..]);
  }

  lemma UndecodablePassesThrough(args: string)
    requires Json.WrappedInput(args).None?
    ensures Json.UnwrapCustomToolInput(DefaultArgs(args)) == DefaultArgs(args) != ""
  {
    if DefaultArgs(args) == "{}" {
      assert Json.Separate("{}", 1, '}') == Json.End(2);
      assert Json.Decode("{}") == Some(Json.Obj([])) by {
        assert Json.SkipWs("{}", 0) == 0 && Json.SkipWs("{}", 1) == 1;
      }
    } else {
      assert TrimSpace("") == "";
    }
  }

  /** The deltas equal the input of the completion event exactly when the
      complete arguments decode to an object with a string input. */
  lemma {:induction false} DeltasEqualDoneIff(names: ToolNames, itemId: string, index: int, name: string,
                                              fragments: seq<string>)
    requires Identity(names, name).custom && names.unwrap == Json.UnwrapCustomToolInput
    ensures var args := Concat(fragments);
            var sent := Input(Feed(names, itemId, index, name, fragments).events);
            && (sent == Json.UnwrapCustomToolInput(DefaultArgs(args)) <==> Json.WrappedInput(args).Some?)
            && (Json.WrappedInput(args).Some? ==> sent == Json.WrappedInput(args).value)
  {
    var args := Concat(fragments);
    DeltasSpellFirstInput(names, itemId, index, name, fragments);
    if Json.WrappedInput(args).Some? {
      assert fragments[..|fragments|] == fragments;
      assert HasInput(fragments);
      FirstInputIsFinal(fragments, args);
      ObjectsAreNotDefaulted(args, args);
    } else {
      UndecodablePassesThrough(args);
      if HasInput(fragments) {
        FirstInputIsFinal(fragments, args);
        var n :| 0 <= n <= |fragments| && Json.WrappedInput(Concat(fragments[..n])).Some?;
        ConcatSplit(fragments, n);
        ObjectsAreNotDefaulted(Concat(fragments[..n]), args);
      } else {
        NoInputYet(fragments);
      }
    }
  }

  /** Any cutting of the wrapper that request history uses spells the input. */
  lemma CanonicalWrapperSpellsInput(names: ToolNames, itemId: string, index: int, name: string, fragments: seq<string>,
                                    input: string)
    requires Identity(names, name).custom && names.unwrap == Json.UnwrapCustomToolInput
             && Concat(fragments) == WrapInput(input)
    ensures Input(Feed(names, itemId, index, name, fragments).events) == input
  {
    ToolIdentities.UnwrapUndoesWrap(input);
    DeltasEqualDoneIff(names, itemId, index, name, fragments);
  }
}
