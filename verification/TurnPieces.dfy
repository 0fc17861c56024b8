/** An assistant turn as a list of pieces, and the one Responses event sequence
    that stands for it. */
module TurnPieces {
  import opened Basics
  import opened ResponseTools
  import opened Wire
  import opened ResponsesTurn

  /** Calls are numbered in the order in which they start. */
  datatype Piece =
    | BeginText
    | Say(text: string)
    | Start(id: string, name: string)
    | Feed(call: nat, fragment: string)

  function PieceAction(t: Turn, p: Piece): Action {
    match p
    case BeginText => OpenText
    case Say(text) => AddText(text)
    case Start(id, name) => OpenTool(id, name)
    case Feed(k, f) => AddArgs(Place(t.textPos, k), f)
  }

  function Play(names: ToolNames, t: Turn, pieces: seq<Piece>): (Turn, seq<Event>) {
    if pieces == [] then (t, [])
    else
      var (t1, e1) := Play(names, t, pieces[..|pieces| - 1]);
      var (t2, e2) := Act(names, t1, PieceAction(t1, pieces[|pieces| - 1]));
      (t2, e1 + e2)
  }

  /** The whole event sequence of a turn. */
  function Canonical(names: ToolNames, id: string, model: string, pieces: seq<Piece>, status: string,
                     usage: ResponsesUsage): seq<Event> {
    var (t, events) := Play(names, NewTurn(id), pieces);
    [Created(id)] + events + Terminal(names, t, model, status, usage)
  }

  lemma {:induction false} PlayAppend(names: ToolNames, t: Turn, a: seq<Piece>, b: seq<Piece>)
    ensures var (t1, e1) := Play(names, t, a);
            var (t2, e2) := Play(names, t1, b);
            Play(names, t, a + b) == (t2, e1 + e2)
    decreases |b|
  {
    hide Act;
    if b == [] {
      assert a + b == a;
      assert Play(names, t, a).1 + [] == Play(names, t, a).1;
    } else {
      assert (a + b)[..|a + b| - 1] == a + b[..|b| - 1];
      PlayAppend(names, t, a, b[..|b| - 1]);
      var (t1, e1) := Play(names, t, a);
      var (t2, e2) := Play(names, t1, b[..|b| - 1]);
      var (t3, e3) := Act(names, t2, PieceAction(t2, b[|b| - 1]));
      assert e1 + e2 + e3 == e1 + (e2 + e3);
    }
  }

  lemma PlayOne(names: ToolNames, t: Turn, p: Piece)
    ensures Play(names, t, [p]) == Act(names, t, PieceAction(t, p))
  {
    hide Act;
    assert [p][..0] == [];
    var (t', e) := Act(names, t, PieceAction(t, p));
    assert [] + e == e;
  }

  lemma PlayNothing(names: ToolNames, t: Turn)
    ensures Play(names, t, []) == (t, [])
  {
  }

  lemma PlayTwo(names: ToolNames, t: Turn, p: Piece, q: Piece)
    ensures var (t1, e1) := Act(names, t, PieceAction(t, p));
            var (t2, e2) := Act(names, t1, PieceAction(t1, q));
            Play(names, t, [p, q]) == (t2, e1 + e2)
  {
    assert [p, q] == [p] + [q];
    PlayAppend(names, t, [p], [q]);
    PlayOne(names, t, p);
    PlayOne(names, Act(names, t, PieceAction(t, p)).0, q);
  }

  /** The actions a list of pieces amounts to. */
  function PlayedActions(names: ToolNames, t: Turn, pieces: seq<Piece>): seq<Action> {
    if pieces == [] then []
    else
      var init := pieces[..|pieces| - 1];
      PlayedActions(names, t, init) + [PieceAction(Play(names, t, init).0, pieces[|pieces| - 1])]
  }

  lemma {:induction false} PlayIsActs(names: ToolNames, t: Turn, pieces: seq<Piece>)
    ensures Play(names, t, pieces) == Acts(names, t, PlayedActions(names, t, pieces))
    decreases |pieces|
  {
    hide Act;
    if pieces != [] {
      var init := pieces[..|pieces| - 1];
      PlayIsActs(names, t, init);
      var actions := PlayedActions(names, t, pieces);
      assert actions[..|actions| - 1] == PlayedActions(names, t, init);
    }
  }

  /** The number of the first occurrence of x, or |seen| if there is none. */
  function NumberOf(seen: seq<int>, x: int): (n: nat)
    ensures n <= |seen| && (n < |seen| ==> seen[n] == x) && forall k | 0 <= k < n :: seen[k] != x
  {
    if seen == [] || seen[0] == x then 0 else 1 + NumberOf(seen[1..], x)
  }

  lemma NumberIs(seen: seq<int>, k: nat)
    requires k < |seen| && forall i, j | 0 <= i < j < |seen| :: seen[i] != seen[j]
    ensures NumberOf(seen, seen[k]) == k
  {
  }
}
