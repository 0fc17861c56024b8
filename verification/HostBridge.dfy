/** Host callbacks under a deadline.  Every invocation runs three parties, the
    caller, the callback goroutine and, past the grace window, an abandon
    goroutine; they share a one-slot channel, the flags exited, drained and
    letGo, and the count of invocations in flight.  The parties' steps
    interleave in any order. */
module HostBridge {
  import opened Basics

  /** What a callback produced; a panic is a failure without bytes. */
  datatype Result = Result(raw: string, failed: bool)

  /** Start is do_stream, with a grace window and an abandon function; Close is
      stream_close; all others are Plain. */
  datatype Kind = Plain(deadline: bool) | Start | Close(stream: string)

  datatype Callback = Running | Sent | Gone

  datatype Caller =
    | Waiting
    | InGrace
    | Holding(late: bool)      // received the value, not yet settled
    | Expired                  // timed out without an abandon function, not yet settled
    | LateSettled              // settled a late value, its stream not yet looked at
    | LateClosing(close: nat)  // waiting for the stream_close it issued
    | Returned(answered: bool)

  datatype Abandoner =
    | Absent
    | Awaiting
    | GotValue
    | Closing(close: nat)
    | Cleaned
    | Finished

  /** sent is the value once the callback produced it, slot whether it is still
      in the channel, takes how often it was received, closes the stream_close
      invocations issued for it. */
  datatype Invocation = Invocation(kind: Kind, expired: bool, callback: Callback, sent: Option<Result>, slot: bool,
                                   takes: nat,
                                   caller: Caller, abandoner: Abandoner, exited: bool, drained: bool, letGo: bool,
                                   closes: seq<nat>)

  datatype State = State(invs: seq<Invocation>, inFlight: int)

  const IDLE := State([], 0)

  function New(kind: Kind): Invocation {
    Invocation(kind, false, Running, None, false, 0, Waiting, Absent, false, false, false, [])
  }

  predicate HasDeadline(kind: Kind) {
    kind.Start? || (kind.Plain? && kind.deadline)
  }

  /** The stream a result names; streamOf decodes the envelope, arbitrarily. */
  function Named(streamOf: string -> Option<string>, r: Result): Option<string> {
    if r.failed then None else streamOf(r.raw)
  }

  // ---- the steps ----

  datatype Step =
    | Begin(kind: Kind)
    | Send(i: nat, result: Result)  // the host returned, or panicked
    | Exit(i: nat)
    | Expire(i: nat)
    | Receive(i: nat)
    | GiveUp(i: nat)                // the caller sees its deadline, or the end of the grace window
    | Settle(i: nat)
    | CloseLate(i: nat)
    | LateClosed(i: nat)
    | AbandonReceive(i: nat)
    | AbandonClose(i: nat)
    | AbandonClosed(i: nat)
    | AbandonSettle(i: nat)

  /** maybeRelease: the first time the callback has exited and the post-work is
      settled, the invocation gives its count back. */
  function Release(s: State, i: nat, inv: Invocation): State
    requires i < |s.invs|
  {
    if inv.exited && inv.drained && !inv.letGo
    then s.(invs := s.invs[i := inv.(letGo := true)], inFlight := s.inFlight - 1)
    else s.(invs := s.invs[i := inv])
  }

  function Put(s: State, i: nat, inv: Invocation): State
    requires i < |s.invs|
  {
    s.(invs := s.invs[i := inv])
  }

  function Begun(s: State, kind: Kind): State {
    s.(invs := s.invs + [New(kind)], inFlight := s.inFlight + 1)
  }

  /** The caller after its deadline: only do_stream has a grace window. */
  function GivenUp(inv: Invocation): Option<Invocation> {
    if inv.caller == Waiting && inv.expired then Some(inv.(caller := if inv.kind.Start? then InGrace else Expired))
    else if inv.caller == InGrace then Some(inv.(caller := Returned(false), abandoner := Awaiting))
    else None
  }

  predicate HasReturned(s: State, j: nat) {
    j < |s.invs| && s.invs[j].caller.Returned?
  }

  /** One step, if the party can take it. */
  function Apply(streamOf: string -> Option<string>, s: State, step: Step): Option<State> {
    match step
    case Begin(kind) => Some(Begun(s, kind))
    case Send(i, result) =>
      if i < |s.invs| && s.invs[i].callback.Running?
      then Some(Put(s, i, s.invs[i].(callback := Sent, sent := Some(result), slot := true)))
      else None
    case Exit(i) =>
      if i < |s.invs| && s.invs[i].callback.Sent?
      then Some(Release(s, i, s.invs[i].(callback := Gone, exited := true)))
      else None
    case Expire(i) =>
      if i < |s.invs| && HasDeadline(s.invs[i].kind) then Some(Put(s, i, s.invs[i].(expired := true))) else None
    case Receive(i) =>
      if i < |s.invs| && s.invs[i].slot && s.invs[i].caller in {Waiting, InGrace}
      then Some(Put(s, i,
                    s.invs[i].(slot := false, takes := s.invs[i].takes + 1,
                               caller := Holding(s.invs[i].caller.InGrace?))))
      else None
    case GiveUp(i) =>
      if i < |s.invs| && GivenUp(s.invs[i]).Some? then Some(Put(s, i, GivenUp(s.invs[i]).value)) else None
    case Settle(i) =>
      if i < |s.invs| && s.invs[i].caller.Holding?
      then Some(Release(s, i,
                        s.invs[i].(drained := true,
                                   caller := if s.invs[i].caller.late then LateSettled else Returned(true))))
      else if i < |s.invs| && s.invs[i].caller.Expired?
      then Some(Release(s, i, s.invs[i].(drained := true, caller := Returned(false))))
      else None
    case CloseLate(i) =>
      if i < |s.invs| && s.invs[i].caller.LateSettled? && s.invs[i].sent.Some? then
        match Named(streamOf, s.invs[i].sent.value)
        case None => Some(Put(s, i, s.invs[i].(caller := Returned(false))))
        case Some(id) =>
          Some(Begun(Put(s, i, s.invs[i].(caller := LateClosing(|s.invs|), closes := s.invs[i].closes + [|s.invs|])),
                     Close(id)))
      else None
    case LateClosed(i) =>
      if i < |s.invs| && s.invs[i].caller.LateClosing? && HasReturned(s, s.invs[i].caller.close)
      then Some(Put(s, i, s.invs[i].(caller := Returned(false))))
      else None
    case AbandonReceive(i) =>
      if i < |s.invs| && s.invs[i].slot && s.invs[i].abandoner.Awaiting?
      then Some(Put(s, i, s.invs[i].(slot := false, takes := s.invs[i].takes + 1, abandoner := GotValue)))
      else None
    case AbandonClose(i) =>
      if i < |s.invs| && s.invs[i].abandoner.GotValue? && s.invs[i].sent.Some? then
        match Named(streamOf, s.invs[i].sent.value)
        case None => Some(Put(s, i, s.invs[i].(abandoner := Cleaned)))
        case Some(id) =>
          Some(Begun(Put(s, i, s.invs[i].(abandoner := Closing(|s.invs|), closes := s.invs[i].closes + [|s.invs|])),
                     Close(id)))
      else None
    case AbandonClosed(i) =>
      if i < |s.invs| && s.invs[i].abandoner.Closing? && HasReturned(s, s.invs[i].abandoner.close)
      then Some(Put(s, i, s.invs[i].(abandoner := Cleaned)))
      else None
    case AbandonSettle(i) =>
      if i < |s.invs| && s.invs[i].abandoner.Cleaned?
      then Some(Release(s, i, s.invs[i].(drained := true, abandoner := Finished)))
      else None
  }

  function Run(streamOf: string -> Option<string>, steps: seq<Step>): Option<State> {
    if steps == [] then Some(IDLE)
    else
      match Run(streamOf, steps[..|steps| - 1])
      case None => None
      case Some(s) => Apply(streamOf, s, steps[|steps| - 1])
  }

  // ---- what every step keeps ----

  function Pending(invs: seq<Invocation>): nat {
    if invs == [] then 0
    else Pending(invs[..|invs| - 1]) + if invs[|invs| - 1].letGo then 0 else 1
  }

  /** One invocation: its count is given back exactly when the callback has
      exited and the post-work is settled; its value is produced once and
      received at most once. */
  ghost predicate Sound(inv: Invocation) {
    && (inv.letGo <==> inv.exited && inv.drained)
    && (inv.exited <==> inv.callback.Gone?)
    && (inv.sent.None? <==> inv.callback.Running?)
    && inv.takes + (if inv.slot then 1 else 0) == (if inv.sent.Some? then 1 else 0)
    && (inv.abandoner.Absent? || (inv.kind.Start? && inv.caller == Returned(false)))
    && (inv.caller.InGrace? || inv.caller.LateSettled? || inv.caller.LateClosing? || inv.caller == Holding(true)
        ==> inv.kind.Start?)
    && (inv.caller.Expired? ==> !inv.kind.Start?)
    && (inv.expired ==> HasDeadline(inv.kind))
    && (inv.drained <==> inv.caller.LateSettled? || inv.caller.LateClosing? ||
                         (inv.caller.Returned? && inv.abandoner in {Absent, Finished}))
    && (inv.takes == 1 <==>
        inv.caller.Holding? || inv.caller.LateSettled? || inv.caller.LateClosing? || inv.caller == Returned(true)
                            || inv.abandoner.GotValue? || inv.abandoner.Closing? || inv.abandoner.Cleaned?
                            || inv.abandoner.Finished?
                            || (inv.caller == Returned(false) && inv.abandoner.Absent? && inv.kind.Start?))
  }

  /** The streams of one invocation: none is both returned and closed, and what
      was received and not returned is closed as soon as its holder has looked. */
  ghost predicate Accounts(streamOf: string -> Option<string>, s: State, inv: Invocation) {
    var named := if inv.sent.Some? then Named(streamOf, inv.sent.value) else None;
    && (forall j | j in inv.closes :: j < |s.invs| && named.Some? && s.invs[j].kind == Close(named.value))
    && (inv.caller.LateClosing? ==> inv.closes == [inv.caller.close])
    && (inv.abandoner.Closing? ==> inv.closes == [inv.abandoner.close])
    && (Unclosed(inv) ==> inv.closes == [])
    && (Closed(inv) ==>
          if named.None? then inv.closes == []
          else |inv.closes| == 1 && HasReturned(s, inv.closes[0]))
  }

  /** Nobody has come to close the stream yet, or ever will. */
  predicate Unclosed(inv: Invocation) {
    || !inv.kind.Start? || inv.caller in {Waiting, InGrace, LateSettled, Returned(true)} || inv.caller.Holding?
    || inv.abandoner in {Awaiting, GotValue}
  }

  /** The holder of a late value has looked at it and waited for its stream_close. */
  predicate Closed(inv: Invocation) {
    inv.kind.Start? && inv.caller == Returned(false) && inv.abandoner in {Absent, Cleaned, Finished}
  }

  ghost predicate Invariant(streamOf: string -> Option<string>, s: State) {
    && s.inFlight == Pending(s.invs)
    && forall i | 0 <= i < |s.invs| :: Sound(s.invs[i]) && Accounts(streamOf, s, s.invs[i])
  }

  lemma {:induction false} PendingPut(invs: seq<Invocation>, i: nat, inv: Invocation)
    requires i < |invs|
    ensures Pending(invs[i := inv]) + (if invs[i].letGo then 0 else 1) == Pending(invs) + (if inv.letGo then 0 else 1)
    decreases |invs|
  {
    var n := |invs| - 1;
    if i < n {
      PendingPut(invs[..n], i, inv);
      assert invs[i := inv][..n] == invs[..n][i := inv];
    } else {
      assert invs[i := inv][..n] == invs[..n];
    }
  }

  lemma PendingSnoc(invs: seq<Invocation>, inv: Invocation)
    ensures Pending(invs + [inv]) == Pending(invs) + if inv.letGo then 0 else 1
  {
    assert (invs + [inv])[..|invs|] == invs;
  }

  /** Others' accounts survive a step of the i-th invocation: kinds never change
      and who has returned stays returned. */
  ghost predicate Extends(s: State, s': State) {
    |s.invs| <= |s'.invs| && forall j | 0 <= j < |s.invs| ::
      s'.invs[j].kind == s.invs[j].kind && (s.invs[j].caller.Returned? ==> s'.invs[j].caller.Returned?)
  }

  lemma AccountsKept(streamOf: string -> Option<string>, s: State, s': State, inv: Invocation)
    requires Accounts(streamOf, s, inv) && Extends(s, s')
    ensures Accounts(streamOf, s', inv)
  {
  }

  /** A step that changes one invocation and keeps its soundness keeps everything. */
  lemma PutKeeps(streamOf: string -> Option<string>, s: State, i: nat, inv: Invocation)
    requires Invariant(streamOf, s) && i < |s.invs|
    requires inv.kind == s.invs[i].kind && (s.invs[i].caller.Returned? ==> inv.caller.Returned?)
             && inv.letGo == s.invs[i].letGo
    requires Sound(inv) && Accounts(streamOf, s, inv)
    ensures Invariant(streamOf, Put(s, i, inv))
  {
    hide Sound, Accounts;
    var s' := Put(s, i, inv);
    PendingPut(s.invs, i, inv);
    assert Extends(s, s');
    forall k | 0 <= k < |s'.invs| ensures Sound(s'.invs[k]) && Accounts(streamOf, s', s'.invs[k]) {
      AccountsKept(streamOf, s, s', s'.invs[k]);
    }
  }

  lemma ReleaseKeeps(streamOf: string -> Option<string>, s: State, i: nat, inv: Invocation)
    requires Invariant(streamOf, s) && i < |s.invs|
    requires inv.kind == s.invs[i].kind && (s.invs[i].caller.Returned? ==> inv.caller.Returned?)
             && inv.letGo == s.invs[i].letGo
    requires var out := inv.(letGo := inv.letGo || (inv.exited && inv.drained));
             Sound(out) && Accounts(streamOf, s, out)
    ensures Invariant(streamOf, Release(s, i, inv))
  {
    hide Sound, Accounts;
    var out := inv.(letGo := inv.letGo || (inv.exited && inv.drained));
    var s' := Release(s, i, inv);
    PendingPut(s.invs, i, out);
    assert s'.invs == s.invs[i := out];
    assert Extends(s, s');
    forall k | 0 <= k < |s'.invs| ensures Sound(s'.invs[k]) && Accounts(streamOf, s', s'.invs[k]) {
      AccountsKept(streamOf, s, s', s'.invs[k]);
    }
  }

  /** A new invocation, begun by anyone. */
  lemma BeginKeeps(streamOf: string -> Option<string>, s: State, kind: Kind)
    requires Invariant(streamOf, s)
    ensures Invariant(streamOf, Begun(s, kind))
  {
    var s' := Begun(s, kind);
    PendingSnoc(s.invs, New(kind));
    assert Extends(s, s');
    forall k | 0 <= k < |s'.invs| ensures Sound(s'.invs[k]) && Accounts(streamOf, s', s'.invs[k]) {
      if k < |s.invs| { AccountsKept(streamOf, s, s', s'.invs[k]); }
    }
  }

  lemma SendKeeps(streamOf: string -> Option<string>, s: State, i: nat, result: Result)
    requires Invariant(streamOf, s) && i < |s.invs| && s.invs[i].callback.Running?
    ensures Invariant(streamOf, Put(s, i, s.invs[i].(callback := Sent, sent := Some(result), slot := true)))
  {
    assert Sound(s.invs[i]) && Accounts(streamOf, s, s.invs[i]);
    PutKeeps(streamOf, s, i, s.invs[i].(callback := Sent, sent := Some(result), slot := true));
  }

  lemma {:induction false} CallbackKeeps(streamOf: string -> Option<string>, s: State, step: Step)
    requires Invariant(streamOf, s) && Apply(streamOf, s, step).Some? && (step.Exit? || step.Expire?)
    ensures Invariant(streamOf, Apply(streamOf, s, step).value)
  {
    var i := step.i;
    assert Sound(s.invs[i]) && Accounts(streamOf, s, s.invs[i]);
    if step.Exit? {
      ReleaseKeeps(streamOf, s, i, s.invs[i].(callback := Gone, exited := true));
    } else {
      PutKeeps(streamOf, s, i, s.invs[i].(expired := true));
    }
  }

  lemma {:induction false} CallerKeeps(streamOf: string -> Option<string>, s: State, step: Step)
    requires Invariant(streamOf, s) && Apply(streamOf, s, step).Some?
             && (step.Receive? || step.GiveUp? || step.LateClosed?)
    ensures Invariant(streamOf, Apply(streamOf, s, step).value)
  {
    var i := step.i;
    var inv := s.invs[i];
    assert Sound(inv) && Accounts(streamOf, s, inv);
    if step.Receive? {
      PutKeeps(streamOf, s, i, inv.(slot := false, takes := inv.takes + 1, caller := Holding(inv.caller.InGrace?)));
    } else if step.GiveUp? {
      PutKeeps(streamOf, s, i, GivenUp(inv).value);
    } else {
      PutKeeps(streamOf, s, i, inv.(caller := Returned(false)));
    }
  }

  lemma {:induction false} SettleKeeps(streamOf: string -> Option<string>, s: State, i: nat)
    requires Invariant(streamOf, s) && Apply(streamOf, s, Settle(i)).Some?
    ensures Invariant(streamOf, Apply(streamOf, s, Settle(i)).value)
  {
    var inv := s.invs[i];
    assert Sound(inv) && Accounts(streamOf, s, inv);
    if inv.caller.Holding? {
      ReleaseKeeps(streamOf, s, i,
                   inv.(drained := true, caller := if inv.caller.late then LateSettled else Returned(true)));
    } else {
      ReleaseKeeps(streamOf, s, i, inv.(drained := true, caller := Returned(false)));
    }
  }

  lemma {:induction false} AbandonerKeeps(streamOf: string -> Option<string>, s: State, step: Step)
    requires Invariant(streamOf, s) && Apply(streamOf, s, step).Some?
    requires step.AbandonReceive? || step.AbandonClosed? || step.AbandonSettle?
    ensures Invariant(streamOf, Apply(streamOf, s, step).value)
  {
    var i := step.i;
    var inv := s.invs[i];
    assert Sound(inv) && Accounts(streamOf, s, inv);
    if step.AbandonReceive? {
      PutKeeps(streamOf, s, i, inv.(slot := false, takes := inv.takes + 1, abandoner := GotValue));
    } else if step.AbandonClosed? {
      PutKeeps(streamOf, s, i, inv.(abandoner := Cleaned));
    } else {
      ReleaseKeeps(streamOf, s, i, inv.(drained := true, abandoner := Finished));
    }
  }

  /** Issuing the stream_close of a late result, from either side. */
  lemma IssueKeeps(streamOf: string -> Option<string>, s: State, i: nat, inv': Invocation, id: string)
    requires Invariant(streamOf, s) && i < |s.invs| && s.invs[i].closes == []
    requires inv'.kind == s.invs[i].kind && (s.invs[i].caller.Returned? ==> inv'.caller.Returned?)
             && inv'.letGo == s.invs[i].letGo
    requires inv'.closes == [|s.invs|] && inv'.sent.Some? && Named(streamOf, inv'.sent.value) == Some(id)
    requires Sound(inv') && !Unclosed(inv') && !Closed(inv')
    requires (inv'.caller.LateClosing? ==> inv'.caller.close == |s.invs|)
             && (inv'.abandoner.Closing? ==> inv'.abandoner.close == |s.invs|)
    ensures Invariant(streamOf, Begun(Put(s, i, inv'), Close(id)))
  {
    hide Invariant, Sound, Unclosed, Closed;
    var s1 := Begun(s, Close(id));
    BeginKeeps(streamOf, s, Close(id));
    assert s1.invs[|s.invs|].kind == Close(id);
    PutKeeps(streamOf, s1, i, inv');
    assert Begun(Put(s, i, inv'), Close(id)).invs == Put(s1, i, inv').invs;
  }

  lemma {:induction false} CloseKeeps(streamOf: string -> Option<string>, s: State, step: Step)
    requires Invariant(streamOf, s) && Apply(streamOf, s, step).Some? && (step.CloseLate? || step.AbandonClose?)
    ensures Invariant(streamOf, Apply(streamOf, s, step).value)
  {
    var i, n := step.i, |s.invs|;
    var inv := s.invs[i];
    assert Sound(inv) && Accounts(streamOf, s, inv);
    hide Invariant, Begun, Put;
    match Named(streamOf, inv.sent.value)
    case None =>
      PutKeeps(streamOf, s, i, if step.CloseLate? then inv.(caller := Returned(false)) else inv.(abandoner := Cleaned));
    case Some(id) =>
      assert inv.closes + [n] == [n];
      if step.CloseLate? {
        IssueKeeps(streamOf, s, i, inv.(caller := LateClosing(n), closes := [n]), id);
      } else {
        IssueKeeps(streamOf, s, i, inv.(abandoner := Closing(n), closes := [n]), id);
      }
  }

  lemma {:induction false} StepKeeps(streamOf: string -> Option<string>, s: State, step: Step)
    requires Invariant(streamOf, s) && Apply(streamOf, s, step).Some?
    ensures Invariant(streamOf, Apply(streamOf, s, step).value)
  {
    hide Invariant;
    if step.Begin? { BeginKeeps(streamOf, s, step.kind); }
    else if step.Send? { SendKeeps(streamOf, s, step.i, step.result); }
    else if step.Exit? || step.Expire? { CallbackKeeps(streamOf, s, step); }
    else if step.Settle? { SettleKeeps(streamOf, s, step.i); }
    else if step.CloseLate? || step.AbandonClose? { CloseKeeps(streamOf, s, step); }
    else if step.Receive? || step.GiveUp? || step.LateClosed? { CallerKeeps(streamOf, s, step); }
    else { AbandonerKeeps(streamOf, s, step); }
  }

  lemma {:induction false} RunKeeps(streamOf: string -> Option<string>, steps: seq<Step>)
    requires Run(streamOf, steps).Some?
    ensures Invariant(streamOf, Run(streamOf, steps).value)
    decreases |steps|
  {
    if steps != [] {
      hide Apply, Invariant;
      RunKeeps(streamOf, steps[..|steps| - 1]);
      StepKeeps(streamOf, Run(streamOf, steps[..|steps| - 1]).value, steps[|steps| - 1]);
    }
  }

  // ---- the theorems, for every interleaving of any number of invocations ----

  /** The count is the number of invocations that have not given theirs back, so it
      never goes negative.  An invocation gives its count back exactly when its
      callback has exited and its post-work is settled, and its one value is
      received at most once. */
  lemma {:induction false} InFlightIsExact(streamOf: string -> Option<string>, steps: seq<Step>)
    requires Run(streamOf, steps).Some?
    ensures var s := Run(streamOf, steps).value;
            && s.inFlight == Pending(s.invs) >= 0
            && forall i | 0 <= i < |s.invs| ::
                 && (s.invs[i].letGo <==> s.invs[i].callback.Gone? && s.invs[i].drained)
                 && s.invs[i].takes <= 1 && (s.invs[i].takes == 1 ==> s.invs[i].sent.Some? && !s.invs[i].slot)
  {
    RunKeeps(streamOf, steps);
    var s := Run(streamOf, steps).value;
    forall i | 0 <= i < |s.invs| ensures Sound(s.invs[i]) {
    }
  }

  /** What is over stays over: a count once given back, a value once produced. */
  predicate Grows(inv: Invocation, inv': Invocation) {
    && (inv.letGo ==> inv'.letGo && inv'.drained && inv'.exited)
    && (inv.sent.Some? ==> inv'.sent == inv.sent) && inv.takes <= inv'.takes
  }

  lemma OthersKept(streamOf: string -> Option<string>, s: State, step: Step, k: nat)
    requires Apply(streamOf, s, step).Some? && k < |s.invs| && (step.Begin? || step.i != k)
    ensures k < |Apply(streamOf, s, step).value.invs| && Apply(streamOf, s, step).value.invs[k] == s.invs[k]
  {
  }

  lemma OwnGrows(streamOf: string -> Option<string>, s: State, step: Step, k: nat)
    requires Apply(streamOf, s, step).Some? && k < |s.invs| && !step.Begin? && step.i == k
    requires var inv := s.invs[k];
             (inv.letGo ==> inv.exited && inv.drained) && (inv.callback.Running? ==> inv.sent.None?)
    ensures k < |Apply(streamOf, s, step).value.invs| && Grows(s.invs[k], Apply(streamOf, s, step).value.invs[k])
  {
  }

  /** A count once given back is never taken or given again, and a value once
      produced never changes. */
  lemma ReleaseIsFinal(streamOf: string -> Option<string>, s: State, step: Step, k: nat)
    requires Invariant(streamOf, s) && Apply(streamOf, s, step).Some? && k < |s.invs|
    ensures var s' := Apply(streamOf, s, step).value;
            k < |s'.invs| && Grows(s.invs[k], s'.invs[k])
  {
    hide Apply, Accounts, Pending;
    assert Sound(s.invs[k]);
    if step.Begin? || step.i != k { OthersKept(streamOf, s, step, k); } else { OwnGrows(streamOf, s, step, k); }
  }

  /** Every party of the invocation is done. */
  predicate Complete(inv: Invocation) {
    inv.caller.Returned? && inv.abandoner in {Absent, Finished}
  }

  /** Some stream_close of the stream was issued for the invocation, and has returned. */
  ghost predicate ClosedOnce(s: State, inv: Invocation, id: string) {
    |inv.closes| == 1 && HasReturned(s, inv.closes[0]) && s.invs[inv.closes[0]].kind == Close(id)
  }

  /** No upstream stream is orphaned: when a do_stream is over, the stream its
      result names was returned to the caller or closed, exactly one of the two,
      however late the result came. */
  lemma NoOrphanedStream(streamOf: string -> Option<string>, steps: seq<Step>, i: nat, id: string)
    requires Run(streamOf, steps).Some? && i < |Run(streamOf, steps).value.invs|
    requires var inv := Run(streamOf, steps).value.invs[i];
             && inv.kind.Start? && Complete(inv) && inv.sent.Some?
             && !inv.sent.value.failed && streamOf(inv.sent.value.raw) == Some(id)
    ensures var s := Run(streamOf, steps).value;
            && (s.invs[i].caller == Returned(true) <==> s.invs[i].closes == [])
            && (s.invs[i].caller != Returned(true) ==> ClosedOnce(s, s.invs[i], id))
  {
    RunKeeps(streamOf, steps);
    var s := Run(streamOf, steps).value;
    assert Sound(s.invs[i]) && Accounts(streamOf, s, s.invs[i]);
  }

  /** No stream is closed but one that a do_stream's result names: a failed result, or one
      without a stream, closes nothing, and what is closed is that stream, once. */
  lemma OnlyNamedStreamsAreClosed(streamOf: string -> Option<string>, steps: seq<Step>, i: nat)
    requires Run(streamOf, steps).Some? && i < |Run(streamOf, steps).value.invs|
    ensures var s := Run(streamOf, steps).value;
            var inv := s.invs[i];
            inv.closes != [] ==>
              && inv.kind.Start? && inv.caller != Returned(true) && inv.sent.Some? && !inv.sent.value.failed
              && |inv.closes| == 1 && inv.closes[0] < |s.invs| && s.invs[inv.closes[0]].kind.Close?
              && streamOf(inv.sent.value.raw) == Some(s.invs[inv.closes[0]].kind.stream)
  {
    RunKeeps(streamOf, steps);
    var s := Run(streamOf, steps).value;
    var inv := s.invs[i];
    assert Sound(inv) && Accounts(streamOf, s, inv);
    if inv.closes != [] { assert inv.closes[0] in inv.closes; }
  }

  /** While an abandon goroutine lives, from before the late result until its
      stream_close has returned, the count stays above zero. */
  lemma {:induction false} PendingCounts(invs: seq<Invocation>, i: nat)
    requires i < |invs| && !invs[i].letGo
    ensures Pending(invs) > 0
    decreases |invs|
  {
    if i < |invs| - 1 { PendingCounts(invs[..|invs| - 1], i); }
  }

  lemma AbandonHoldsTheCount(streamOf: string -> Option<string>, steps: seq<Step>, i: nat)
    requires Run(streamOf, steps).Some? && i < |Run(streamOf, steps).value.invs|
    requires Run(streamOf, steps).value.invs[i].abandoner !in {Absent, Finished}
    ensures Run(streamOf, steps).value.inFlight > 0
  {
    RunKeeps(streamOf, steps);
    var s := Run(streamOf, steps).value;
    assert Sound(s.invs[i]);
    PendingCounts(s.invs, i);
  }

  /** What shutdown may rely on when the count is zero: no callback is in the host
      and no abandon goroutine lives.  A stream may still be waiting to be closed
      only by a caller whose result came within the grace window. */
  lemma WaitedMeansDrained(streamOf: string -> Option<string>, steps: seq<Step>, i: nat)
    requires Run(streamOf, steps).Some? && i < |Run(streamOf, steps).value.invs|
    requires Run(streamOf, steps).value.inFlight == 0
    ensures var s := Run(streamOf, steps).value;
            var inv := s.invs[i];
            && inv.callback.Gone? && inv.drained && inv.abandoner in {Absent, Finished}
            && (Complete(inv) || inv.caller.LateSettled? || inv.caller.LateClosing?)
  {
    RunKeeps(streamOf, steps);
    var s := Run(streamOf, steps).value;
    assert Sound(s.invs[i]);
    if !s.invs[i].letGo { PendingCounts(s.invs, i); }
  }

  /** That case is real: settle comes before the late stream is closed, so the
      count can reach zero with the stream still open. */
  lemma GraceWindowReleasesEarly(streamOf: string -> Option<string>, r: Result, id: string)
    requires !r.failed && streamOf(r.raw) == Some(id)
    ensures var steps := [Begin(Start), Expire(0), GiveUp(0), Send(0, r), Exit(0), Receive(0), Settle(0)];
            var s := Run(streamOf, steps);
            && s.Some? && s.value.inFlight == 0 && |s.value.invs| == 1
            && s.value.invs[0].caller.LateSettled? && s.value.invs[0].sent == Some(r) && s.value.invs[0].closes == []
  {
    var s3 := GraceBegins(streamOf);
    var s6 := LateValueArrives(streamOf, s3, r);
    var t3, t6 := [Begin(Start), Expire(0), GiveUp(0)],
                  [Begin(Start), Expire(0), GiveUp(0), Send(0, r), Exit(0), Receive(0)];
    Steps3(streamOf, [], IDLE, Begin(Start), Expire(0), GiveUp(0), s3);
    Steps3(streamOf, t3, s3, Send(0, r), Exit(0), Receive(0), s6);
    assert [] + t3 == t3 && t3 + [Send(0, r), Exit(0), Receive(0)] == t6;
    RunSnoc(streamOf, t6, Settle(0));
    hide Run;
    assert t6 + [Settle(0)] == [Begin(Start), Expire(0), GiveUp(0), Send(0, r), Exit(0), Receive(0), Settle(0)];
  }

  /** Three steps in a row. */
  ghost predicate Takes(streamOf: string -> Option<string>, s: State, a: Step, b: Step, c: Step, after: State) {
    var s1 := Apply(streamOf, s, a);
    s1.Some? && var s2 := Apply(streamOf, s1.value, b); s2.Some? && Apply(streamOf, s2.value, c) == Some(after)
  }

  lemma {:induction false} GraceBegins(streamOf: string -> Option<string>) returns (s: State)
    ensures Takes(streamOf, IDLE, Begin(Start), Expire(0), GiveUp(0), s)
    ensures s == State([New(Start).(expired := true, caller := InGrace)], 1)
  {
    var begun := New(Start);
    var expired := begun.(expired := true);
    var late := expired.(caller := InGrace);
    assert [] + [begun] == [begun] && [begun][0 := expired] == [expired] && [expired][0 := late] == [late];
    s := State([late], 1);
  }

  lemma {:induction false} LateValueArrives(streamOf: string -> Option<string>, s: State, r: Result)
    returns (after: State)
    requires s == State([New(Start).(expired := true, caller := InGrace)], 1)
    ensures Takes(streamOf, s, Send(0, r), Exit(0), Receive(0), after)
    ensures after ==
              State([New(Start).(expired := true, callback := Gone, sent := Some(r), exited := true, takes := 1,
                                 caller := Holding(true))], 1)
  {
    var late := s.invs[0];
    var sent := late.(callback := Sent, sent := Some(r), slot := true);
    var gone := sent.(callback := Gone, exited := true);
    var taken := gone.(slot := false, takes := 1, caller := Holding(true));
    assert s.invs[0 := sent] == [sent] && [sent][0 := gone] == [gone] && [gone][0 := taken] == [taken];
    after := State([taken], 1);
  }

  lemma {:induction false} Steps3(streamOf: string -> Option<string>, before: seq<Step>, s: State, a: Step, b: Step,
                                  c: Step, after: State)
    requires Run(streamOf, before) == Some(s)
    requires Takes(streamOf, s, a, b, c, after)
    ensures Run(streamOf, before + [a, b, c]) == Some(after)
  {
    hide Apply, Run;
    RunSnoc(streamOf, before, a);
    RunSnoc(streamOf, before + [a], b);
    RunSnoc(streamOf, before + [a] + [b], c);
    assert before + [a] + [b] + [c] == before + [a, b, c];
  }

  lemma {:induction false} RunSnoc(streamOf: string -> Option<string>, steps: seq<Step>, step: Step)
    ensures Run(streamOf, steps + [step]) ==
            match Run(streamOf, steps) case None => None case Some(s) => Apply(streamOf, s, step)
  {
    hide Apply;
    assert (steps + [step])[..|steps|] == steps;
  }

  /** A deadline frees the caller whatever the host does: a waiting caller with one is
      back after three steps of its own, a do_stream by way of its grace window; one
      without a deadline never gives up. */
  lemma {:induction false} DeadlineFreesTheCaller(streamOf: string -> Option<string>, steps: seq<Step>, i: nat)
    requires Run(streamOf, steps).Some? && i < |Run(streamOf, steps).value.invs|
    requires Run(streamOf, steps).value.invs[i].caller.Waiting?
    ensures var s := Run(streamOf, steps).value;
            var inv := s.invs[i];
            if inv.kind.Start? || inv.kind == Plain(true) then
              var last := if inv.kind.Start? then GiveUp(i) else Settle(i);
              var late := Run(streamOf, steps + [Expire(i), GiveUp(i), last]);
              && late.Some? && i < |late.value.invs| && late.value.invs[i].caller == Returned(false)
              && late.value.invs[i].callback == inv.callback
              && (inv.kind.Start? ==> late.value.invs[i].abandoner.Awaiting?)
            else Apply(streamOf, s, GiveUp(i)).None?
  {
    RunKeeps(streamOf, steps);
    var s := Run(streamOf, steps).value;
    var inv := s.invs[i];
    assert Sound(inv);
    if inv.kind.Start? || inv.kind == Plain(true) {
      var last := if inv.kind.Start? then GiveUp(i) else Settle(i);
      var after := GivesUp(streamOf, s, i, last);
      Steps3(streamOf, steps, s, Expire(i), GiveUp(i), last, after);
    }
  }

  lemma {:induction false} GivesUp(streamOf: string -> Option<string>, s: State, i: nat, last: Step)
    returns (after: State)
    requires i < |s.invs| && s.invs[i].caller.Waiting?
    requires var kind := s.invs[i].kind;
             (kind.Start? && last == GiveUp(i)) || (kind == Plain(true) && last == Settle(i))
    ensures Takes(streamOf, s, Expire(i), GiveUp(i), last, after)
    ensures |after.invs| == |s.invs| && after.invs[i].caller == Returned(false)
            && after.invs[i].callback == s.invs[i].callback
            && (s.invs[i].kind.Start? ==> after.invs[i].abandoner.Awaiting?)
  {
    var s1 := Apply(streamOf, s, Expire(i)).value;
    var s2 := Apply(streamOf, s1, GiveUp(i)).value;
    after := Apply(streamOf, s2, last).value;
  }

  /** The i-th invocation waits for the stream_close that is the j-th. */
  predicate WaitsFor(inv: Invocation, j: nat) {
    inv.caller == LateClosing(j) || inv.abandoner == Closing(j)
  }

  /** A party of the i-th invocation, or of the stream_close it waits for, can take a step. */
  ghost predicate CanMove(streamOf: string -> Option<string>, s: State, i: nat)
    requires i < |s.invs|
  {
    exists step: Step ::
      !step.Begin? && !step.Expire? && (step.i == i || WaitsFor(s.invs[i], step.i)) && Apply(streamOf, s, step).Some?
  }

  /** Nothing gets stuck: once the host has returned from every callback, every
      invocation that is not over can move, by a step of its own or of the
      stream_close it waits for. */
  lemma {:induction false} NeverStuck(streamOf: string -> Option<string>, steps: seq<Step>, i: nat)
    requires Run(streamOf, steps).Some? && i < |Run(streamOf, steps).value.invs|
    requires var s := Run(streamOf, steps).value;
             (!Complete(s.invs[i]) || !s.invs[i].letGo) && forall k | 0 <= k < |s.invs| :: !s.invs[k].callback.Running?
    ensures CanMove(streamOf, Run(streamOf, steps).value, i)
  {
    hide Run;
    RunKeeps(streamOf, steps);
    var s := Run(streamOf, steps).value;
    var inv := s.invs[i];
    assert Sound(inv) && Accounts(streamOf, s, inv);
    if inv.caller.LateClosing? || inv.abandoner.Closing? {
      var j := if inv.caller.LateClosing? then inv.caller.close else inv.abandoner.close;
      assert j in inv.closes;
      CloserCanMove(streamOf, s, i, j);
    } else if inv.abandoner.GotValue? || inv.abandoner.Awaiting? || inv.abandoner.Cleaned? {
      AbandonerCanMove(streamOf, s, i);
    } else if inv.caller.LateSettled? {
      assert Apply(streamOf, s, CloseLate(i)).Some?;
    } else if inv.caller.Returned? {
      assert Apply(streamOf, s, Exit(i)).Some?;
    } else {
      var step := CallerCanMove(streamOf, s, i);
    }
  }

  lemma {:induction false} CloserCanMove(streamOf: string -> Option<string>, s: State, i: nat, j: nat)
    requires Invariant(streamOf, s) && i < |s.invs| && j < |s.invs| && s.invs[j].kind.Close?
             && !s.invs[j].callback.Running?
    requires WaitsFor(s.invs[i], j)
    ensures CanMove(streamOf, s, i)
  {
    assert Sound(s.invs[j]);
    if HasReturned(s, j) {
      assert Apply(streamOf, s, if s.invs[i].caller == LateClosing(j) then LateClosed(i) else AbandonClosed(i)).Some?;
    } else {
      hide Invariant;
      var step := CallerCanMove(streamOf, s, j);
      assert WaitsFor(s.invs[i], step.i);
    }
  }

  lemma {:induction false} AbandonerCanMove(streamOf: string -> Option<string>, s: State, i: nat)
    requires i < |s.invs| && Sound(s.invs[i]) && !s.invs[i].callback.Running?
    requires s.invs[i].abandoner.GotValue? || s.invs[i].abandoner.Awaiting? || s.invs[i].abandoner.Cleaned?
    ensures CanMove(streamOf, s, i)
  {
    if s.invs[i].abandoner.GotValue? {
      assert Apply(streamOf, s, AbandonClose(i)).Some?;
    } else if s.invs[i].abandoner.Awaiting? {
      assert Apply(streamOf, s, AbandonReceive(i)).Some?;
    } else {
      assert Apply(streamOf, s, AbandonSettle(i)).Some?;
    }
  }

  lemma {:induction false} CallerCanMove(streamOf: string -> Option<string>, s: State, i: nat) returns (step: Step)
    requires i < |s.invs| && Sound(s.invs[i]) && !s.invs[i].callback.Running?
    requires s.invs[i].caller in {Waiting, InGrace, Expired} || s.invs[i].caller.Holding?
    ensures !step.Begin? && !step.Expire? && step.i == i && Apply(streamOf, s, step).Some?
  {
    step := if s.invs[i].caller in {Waiting, InGrace} then Receive(i) else Settle(i);
  }
}
