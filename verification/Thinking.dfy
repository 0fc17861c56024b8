/** Reasoning controls: effort levels and token budgets, and what a model supports. */
module Thinking {
  import opened Basics

  /** Weakest to strongest; Off is the level named "none". */
  datatype Level = Off | Minimal | Low | Medium | High | XHigh | Max

  const CANONICAL := [Off, Minimal, Low, Medium, High, XHigh, Max]

  function Rank(l: Level): nat {
    match l case Off => 0 case Minimal => 1 case Low => 2 case Medium => 3 case High => 4 case XHigh => 5 case Max => 6
  }

  lemma RankIsPosition(l: Level)
    ensures Rank(l) < |CANONICAL| && CANONICAL[Rank(l)] == l
  {
  }

  function Name(l: Level): string {
    match l
    case Off => "none" case Minimal => "minimal" case Low => "low" case Medium => "medium"
    case High => "high" case XHigh => "xhigh" case Max => "max"
  }

  /** A model's declared capability. */
  datatype Support = Support(min: int, max: int, zeroAllowed: bool, dynamicAllowed: bool, levels: seq<string>)

  predicate Zero(ts: Option<Support>) {
    ts.Some? && ts.value.zeroAllowed
  }

  predicate Dynamic(ts: Option<Support>) {
    ts.Some? && ts.value.dynamicAllowed
  }

  // ---- the supported set ----

  const DEFAULT_LEVELS := [Low, Medium, High]

  /** The canonical levels that are declared; fold lowers and trims. */
  function Declared(fold: string -> string, names: seq<string>, canon: seq<Level>): seq<Level> {
    if canon == [] then []
    else
      var before, last := Declared(fold, names, canon[..|canon| - 1]), canon[|canon| - 1];
      if exists k | 0 <= k < |names| :: fold(names[k]) == Name(last) then before + [last] else before
  }

  function SupportedLevels(fold: string -> string, ts: Option<Support>): seq<Level> {
    match ts
    case None => DEFAULT_LEVELS
    case Some(t) =>
      var out := Declared(fold, t.levels, CANONICAL);
      if out == [] then DEFAULT_LEVELS else out
  }

  method ComputeSupported(fold: string -> string, ts: Option<Support>) returns (r: seq<Level>)
    ensures r == SupportedLevels(fold, ts)
  {
    if ts.None? { return DEFAULT_LEVELS; }
    var names := ts.value.levels;
    var out: seq<Level> := [];
    for i := 0 to |CANONICAL|
      invariant out == Declared(fold, names, CANONICAL[..i])
    {
      assert CANONICAL[..i + 1][..i] == CANONICAL[..i];
      var canon := CANONICAL[i];
      ghost var before := out;
      for j := 0 to |names|
        invariant out == before && forall k | 0 <= k < j :: fold(names[k]) != Name(canon)
      {
        if fold(names[j]) == Name(canon) {
          out := out + [canon];
          break;
        }
      }
    }
    assert CANONICAL[..|CANONICAL|] == CANONICAL;
    if |out| == 0 { return DEFAULT_LEVELS; }
    return out;
  }

  ghost predicate Ordered(levels: seq<Level>) {
    forall i, j | 0 <= i < j < |levels| :: Rank(levels[i]) < Rank(levels[j])
  }

  lemma {:induction false} DeclaredIsOrdered(fold: string -> string, names: seq<string>, n: nat)
    requires n <= |CANONICAL|
    ensures Ordered(Declared(fold, names, CANONICAL[..n]))
    ensures forall k | 0 <= k < |Declared(fold, names, CANONICAL[..n])| ::
              Rank(Declared(fold, names, CANONICAL[..n])[k]) < n
    decreases n
  {
    if n > 0 {
      DeclaredIsOrdered(fold, names, n - 1);
      assert CANONICAL[..n][..n - 1] == CANONICAL[..n - 1];
    }
  }

  /** The supported set is never empty and in canonical order. */
  lemma SupportedIsOrdered(fold: string -> string, ts: Option<Support>)
    ensures SupportedLevels(fold, ts) != [] && Ordered(SupportedLevels(fold, ts))
  {
    if ts.Some? {
      DeclaredIsOrdered(fold, ts.value.levels, |CANONICAL|);
      assert CANONICAL[..|CANONICAL|] == CANONICAL;
    }
  }

  // ---- the nearest supported level ----

  function Distance(a: Level, b: Level): int {
    Gap(Rank(a), Rank(b))
  }

  predicate Before(d: int, r: int, d': int, r': int) {
    d < d' || (d == d' && r < r')
  }

  /** a is nearer to the level than b, or as near and weaker. */
  predicate Nearer(level: Level, a: Level, b: Level) {
    Before(Distance(level, a), Rank(a), Distance(level, b), Rank(b))
  }

  function Nearest(level: Level, supported: seq<Level>): Level
    requires supported != []
  {
    var last := supported[|supported| - 1];
    if |supported| == 1 then last
    else
      var best := Nearest(level, supported[..|supported| - 1]);
      if Nearer(level, last, best) then last else best
  }

  /** The one supported level that no other is nearer than. */
  lemma {:induction false} NearestIsNearest(level: Level, supported: seq<Level>)
    requires supported != []
    ensures var best := Nearest(level, supported);
            best in supported && forall k | 0 <= k < |supported| ::
              supported[k] == best || Nearer(level, best, supported[k])
    decreases |supported|
  {
    hide Nearer, Nearest;
    NearestSnoc(level, supported);
    var n := |supported| - 1;
    if n > 0 {
      var init, last := supported[..n], supported[n];
      NearestIsNearest(level, init);
      var before, best := Nearest(level, init), Nearest(level, supported);
      forall k | 0 <= k < |supported| ensures supported[k] == best || Nearer(level, best, supported[k]) {
        NearerIsOrder(level, last, before, supported[k]);
        if k < n { assert init[k] == before || Nearer(level, before, init[k]); }
      }
      if best == before { var k :| 0 <= k < n && init[k] == before; assert supported[k] == best; }
    }
  }

  lemma NearerIsOrder(level: Level, a: Level, b: Level, c: Level)
    ensures a == b || Nearer(level, a, b) || Nearer(level, b, a)
    ensures Nearer(level, a, b) && Nearer(level, b, c) ==> Nearer(level, a, c)
  {
    RankInjective(a, b);
    hide Rank;
    LexOrder(Distance(level, a), Rank(a), Distance(level, b), Rank(b), Distance(level, c), Rank(c));
    hide Distance;
  }

  lemma RankInjective(a: Level, b: Level)
    ensures Rank(a) == Rank(b) ==> a == b
  {
  }

  lemma LexOrder(da: int, ra: int, db: int, rb: int, dc: int, rc: int)
    ensures (da == db && ra == rb) || Before(da, ra, db, rb) || Before(db, rb, da, ra)
    ensures Before(da, ra, db, rb) && Before(db, rb, dc, rc) ==> Before(da, ra, dc, rc)
  {
  }

  lemma NearestSnoc(level: Level, supported: seq<Level>)
    requires supported != []
    ensures var n := |supported| - 1;
            Nearest(level, supported) ==
            if n > 0 && !Nearer(level, supported[n], Nearest(level, supported[..n]))
            then Nearest(level, supported[..n]) else supported[n]
  {
  }

  /** One more level: what the scan compares. */
  lemma NearestStep(level: Level, supported: seq<Level>, i: nat)
    requires i < |supported|
    ensures i == 0 ==> Nearest(level, supported[..i + 1]) == supported[i]
    ensures i > 0 ==>
              var best := Nearest(level, supported[..i]);
              Nearest(level, supported[..i + 1]) ==
              if Before(Distance(level, supported[i]), Rank(supported[i]), Distance(level, best), Rank(best))
              then supported[i] else best
  {
    hide Nearest, Rank, Distance;
    assert supported[..i + 1][..i] == supported[..i];
    NearestSnoc(level, supported[..i + 1]);
  }

  method ClampToSupported(level: Level, supported: seq<Level>) returns (r: Level)
    requires supported != []
    ensures r == Nearest(level, supported)
  {
    if level in supported {
      NearestIsNearest(level, supported);
      return level;
    }
    hide Nearest, Rank;
    var pos: int := Rank(level);
    var bestIdx: int, bestDist: int := -1, |CANONICAL| + 1;
    for i := 0 to |supported|
      invariant i == 0 ==> bestIdx == -1 && bestDist == |CANONICAL| + 1
      invariant i > 0 ==>
                  bestIdx == Rank(Nearest(level, supported[..i]))
                  && bestDist == Distance(level, Nearest(level, supported[..i]))
    {
      NearestStep(level, supported, i);
      RankIsPosition(supported[i]);
      RankIsPosition(level);
      var idx: int := Rank(supported[i]);
      var dist: int := pos - idx;
      if dist < 0 {
        dist := -dist;
      }
      if dist < bestDist || (dist == bestDist && idx < bestIdx) {
        bestIdx, bestDist := idx, dist;
      }
    }
    assert supported[..|supported|] == supported;
    RankIsPosition(Nearest(level, supported));
    return CANONICAL[bestIdx];
  }

  /** Asking for more never yields less. */
  lemma {:induction false} NearestIsMonotone(a: Level, b: Level, supported: seq<Level>)
    requires supported != [] && Rank(a) <= Rank(b)
    ensures Rank(Nearest(a, supported)) <= Rank(Nearest(b, supported))
  {
    hide Nearest, Rank;
    NearestIsNearest(a, supported);
    NearestIsNearest(b, supported);
    var x, y := Nearest(a, supported), Nearest(b, supported);
    assert x == y || Nearer(a, x, y);
    assert x == y || Nearer(b, y, x);
    CloserIsMonotone(Rank(a), Rank(b), Rank(x), Rank(y));
  }

  function Gap(a: int, b: int): int {
    if a < b then b - a else a - b
  }

  lemma CloserIsMonotone(a: int, b: int, x: int, y: int)
    requires a <= b
    requires x == y || Gap(a, x) < Gap(a, y) || (Gap(a, x) == Gap(a, y) && x < y)
    requires x == y || Gap(b, y) < Gap(b, x) || (Gap(b, y) == Gap(b, x) && y < x)
    ensures x <= y
  {
  }

  // ---- budgets to efforts ----

  datatype Effort = Auto | At(level: Level)

  function BudgetToLevel(budget: int): Level {
    if budget <= 512 then Minimal else if budget <= 1024 then Low else if budget <= 8192 then Medium
    else if budget <= 24576 then High else XHigh
  }

  function EffortFromBudget(fold: string -> string, budget: int, ts: Option<Support>): Effort {
    var supported := SupportedLevels(fold, ts);
    SupportedIsOrdered(fold, ts);
    if budget <= 0 then
      if Zero(ts) && Off in supported then At(Off) else if Dynamic(ts) then Auto else At(supported[0])
    else At(Nearest(BudgetToLevel(budget), supported))
  }

  /** The effort is one the model supports, or "auto" for one that allows it; and
      a larger positive budget never yields a weaker effort. */
  lemma EffortIsSupported(fold: string -> string, budget: int, larger: int, ts: Option<Support>)
    ensures var e := EffortFromBudget(fold, budget, ts);
            if e.Auto? then budget <= 0 && Dynamic(ts) else e.level in SupportedLevels(fold, ts)
    ensures 0 < budget <= larger ==>
              && EffortFromBudget(fold, budget, ts).At? && EffortFromBudget(fold, larger, ts).At?
              && Rank(EffortFromBudget(fold, budget, ts).level) <= Rank(EffortFromBudget(fold, larger, ts).level)
  {
    SupportedIsOrdered(fold, ts);
    var supported := SupportedLevels(fold, ts);
    NearestIsNearest(BudgetToLevel(budget), supported);
    if budget <= larger {
      hide SupportedLevels, Nearest;
      NearestIsMonotone(BudgetToLevel(budget), BudgetToLevel(larger), supported);
    }
  }

  // ---- efforts to budgets ----

  function TableBudget(l: Level): int {
    match l
    case Off => 0
    case Minimal => 512
    case Low => 1024
    case Medium => 8192
    case High => 24576
    case XHigh => 32768
    case Max => 128000
  }

  function Bounded(budget: int, ts: Option<Support>): int {
    match ts
    case None => budget
    case Some(t) =>
      var raised := if t.min > 0 && budget < t.min then t.min else budget;
      if t.max > 0 && raised > t.max then t.max else raised
  }

  /** None for an effort that cannot be represented. */
  function BudgetFromEffort(fold: string -> string, effort: string, ts: Option<Support>): Option<int> {
    var e := fold(effort);
    var supported := SupportedLevels(fold, ts);
    SupportedIsOrdered(fold, ts);
    if e == "" then None
    else if e == "auto" then
      if Dynamic(ts) then Some(-1) else Some(Bounded(TableBudget(Nearest(Medium, supported)), ts))
    else if e == "none" || e == "minimal" then
      if !Zero(ts) then Some(Bounded(TableBudget(supported[0]), ts))
      else if e == "none" then Some(0)
      else Some(Bounded(TableBudget(Minimal), ts))
    else
      match LevelNamed(e, supported)
      case Some(l) => Some(Bounded(TableBudget(l), ts))
      case None => None
  }

  function LevelNamed(name: string, supported: seq<Level>): (r: Option<Level>)
    ensures r.Some? ==> r.value in supported && Name(r.value) == name
    ensures r.None? ==> forall k | 0 <= k < |supported| :: Name(supported[k]) != name
  {
    if supported == [] then None
    else if Name(supported[0]) == name then Some(supported[0])
    else LevelNamed(name, supported[1..])
  }

  predicate ValidEffort(fold: string -> string, effort: string, ts: Option<Support>) {
    var e := fold(effort);
    var supported := SupportedLevels(fold, ts);
    if e == "auto" then Dynamic(ts)
    else if e == "none" then Zero(ts) || LevelNamed("none", supported).Some?
    else LevelNamed(e, supported).Some?
  }

  /** Every effort that validation admits has a budget.  The converse holds but for
      three fall-backs: "auto" on a model that is not dynamic, and "none" and
      "minimal" on one that does not support them. */
  lemma ValidatedEffortsHaveBudgets(fold: string -> string, effort: string, ts: Option<Support>)
    ensures ValidEffort(fold, effort, ts) ==> BudgetFromEffort(fold, effort, ts).Some?
    ensures BudgetFromEffort(fold, effort, ts).Some? && !ValidEffort(fold, effort, ts) <==>
            fold(effort) in {"auto", "none", "minimal"} && !ValidEffort(fold, effort, ts)
  {
    hide SupportedLevels;
    EmptyIsNoLevel(SupportedLevels(fold, ts));
  }

  lemma {:induction false} EmptyIsNoLevel(supported: seq<Level>)
    ensures LevelNamed("", supported).None?
  {
    if supported != [] { EmptyIsNoLevel(supported[1..]); }
  }

  /** A positive budget stays within the declared bounds. */
  lemma BudgetsAreBounded(fold: string -> string, effort: string, ts: Support)
    requires BudgetFromEffort(fold, effort, Some(ts)).Some?
    ensures var b := BudgetFromEffort(fold, effort, Some(ts)).value;
            || b == -1 || b == 0
            || ((ts.max > 0 ==> b <= ts.max) && (ts.min > 0 && (ts.max <= 0 || ts.min <= ts.max) ==> b >= ts.min))
  {
    hide SupportedLevels, Nearest;
  }

  /** The budget a supported level is given: none at all for "none" where zero is
      allowed; where it is not, the two weakest names stand for the weakest level. */
  function GivenBudget(level: Level, supported: seq<Level>, ts: Option<Support>): int
    requires supported != []
  {
    if level == Off && Zero(ts) then 0
    else Bounded(TableBudget(if level in {Off, Minimal} && !Zero(ts) then supported[0] else level), ts)
  }

  /** A supported level survives the way through a budget and back: with a positive
      budget if and only if no other supported level is nearer to what the budget
      reads as; with none if and only if it is "none" and that is what no budget
      means.  Where the bounds leave the budget alone only the strongest level can
      fail: its budget reads as the level below, so it survives if and only if
      neither that nor the next is supported. */
  lemma LevelRoundTripIff(fold: string -> string, ts: Option<Support>, level: Level, effort: string)
    requires level in SupportedLevels(fold, ts) && fold(effort) == Name(level)
    ensures var supported := SupportedLevels(fold, ts);
            && supported != [] && BudgetFromEffort(fold, effort, ts) == Some(GivenBudget(level, supported, ts))
            && var b := GivenBudget(level, supported, ts);
            && b >= 0
            && (EffortFromBudget(fold, b, ts) == At(level) <==>
                if b == 0 then level == Off && (Zero(ts) || !Dynamic(ts))
                else forall k | 0 <= k < |supported| ::
                  supported[k] == level || Nearer(BudgetToLevel(b), level, supported[k]))
            && (b == TableBudget(level) && level != Off ==>
                  (EffortFromBudget(fold, b, ts) == At(level) <==>
                   level != Max || (XHigh !in supported && High !in supported)))
  {
    var supported := SupportedLevels(fold, ts);
    SupportedIsOrdered(fold, ts);
    hide SupportedLevels, Nearest, Nearer;
    NamesDiffer(level, LevelNamed(Name(level), supported));
    var b := GivenBudget(level, supported, ts);
    NearestIff(BudgetToLevel(b), level, supported);
    if b == 0 { WeakestIsOff(level, supported, ts); }
    if level != Off { NearestOfDerived(level, supported); }
  }

  /** The nearest level is the one that every other supported level is farther than. */
  lemma NearestIff(derived: Level, level: Level, supported: seq<Level>)
    requires level in supported
    ensures Nearest(derived, supported) == level <==>
            forall k | 0 <= k < |supported| :: supported[k] == level || Nearer(derived, level, supported[k])
  {
    hide Nearest;
    NearestIsNearest(derived, supported);
    var best := Nearest(derived, supported);
    if forall k | 0 <= k < |supported| :: supported[k] == level || Nearer(derived, level, supported[k]) {
      var i :| 0 <= i < |supported| && supported[i] == level;
      var j :| 0 <= j < |supported| && supported[j] == best;
      assert supported[i] == best || Nearer(derived, best, supported[i]);
    }
  }

  lemma FirstIsWeakest(supported: seq<Level>, k: nat)
    requires Ordered(supported) && k < |supported|
    ensures Rank(supported[0]) <= Rank(supported[k])
  {
  }

  /** Only "none" has an empty budget. */
  lemma WeakestIsOff(level: Level, supported: seq<Level>, ts: Option<Support>)
    requires level in supported && Ordered(supported) && supported != [] && GivenBudget(level, supported, ts) == 0
    ensures level == Off || supported[0] == Off
    ensures Off in supported ==> supported[0] == Off
  {
    if Off in supported {
      var k :| 0 <= k < |supported| && supported[k] == Off;
      FirstIsWeakest(supported, k);
    }
  }

  lemma NearestOfDerived(level: Level, supported: seq<Level>)
    requires level in supported && level != Off
    ensures Nearest(BudgetToLevel(TableBudget(level)), supported) == level <==>
            level != Max || (XHigh !in supported && High !in supported)
  {
    var derived := BudgetToLevel(TableBudget(level));
    hide Nearest;
    NearestIsNearest(derived, supported);
    var k :| 0 <= k < |supported| && supported[k] == level;
    if level == Max {
      if XHigh in supported { var j :| 0 <= j < |supported| && supported[j] == XHigh; }
      if High in supported { var j :| 0 <= j < |supported| && supported[j] == High; }
    }
  }

  lemma NamesDiffer(level: Level, r: Option<Level>)
    ensures r.Some? && Name(r.value) == Name(level) ==> r.value == level
    ensures Name(level) != "auto" && Name(level) != ""
  {
  }

  // ---- the tables, and the cases they leave open ----

  /** The two tables fit: a positive budget reads as the weakest level whose own budget
      is as large, and as "xhigh" beyond all of those. */
  lemma TablesFit(budget: int, level: Level)
    requires budget > 0
    ensures level in {Minimal, Low, Medium, High} ==>
              (BudgetToLevel(budget) == level <==>
               budget <= TableBudget(level) && forall l | Rank(l) < Rank(level) :: TableBudget(l) < budget)
    ensures BudgetToLevel(budget) == XHigh <==> budget > TableBudget(High)
    ensures TableBudget(Off) == 0 && TableBudget(XHigh) == 32768 && TableBudget(Max) == 128000
  {
    assert Rank(Off) < Rank(Minimal) < Rank(Low) < Rank(Medium) < Rank(High);
    assert TableBudget(Minimal) < TableBudget(Low) < TableBudget(Medium) < TableBudget(High);
  }

  const NAMES := ["none", "minimal", "low", "medium", "high", "xhigh", "max"]

  /** Some declared name folds to this one. */
  predicate Declares(fold: string -> string, names: seq<string>, name: string) {
    exists k | 0 <= k < |names| :: fold(names[k]) == name
  }

  /** A level is supported if it is declared under its name; a model that declares none
      supports "low", "medium" and "high". */
  lemma {:induction false} SupportedAre(fold: string -> string, ts: Option<Support>, level: Level)
    ensures var declares := ts.Some? && exists r :: 0 <= r < |NAMES| && Declares(fold, ts.value.levels, NAMES[r]);
            level in SupportedLevels(fold, ts) <==>
            if declares then Declares(fold, ts.value.levels, NAMES[Rank(level)]) else level in {Low, Medium, High}
  {
    if ts.Some? {
      assert CANONICAL[..|CANONICAL|] == CANONICAL;
      var names := ts.value.levels;
      var out := Declared(fold, names, CANONICAL);
      DeclaredAre(fold, names, |CANONICAL|);
      hide Declares, Declared;
      forall l ensures l in out <==> Declares(fold, names, NAMES[Rank(l)]) {
        RankIsPosition(l);
        NamesAre(l);
      }
      if r :| 0 <= r < |NAMES| && Declares(fold, names, NAMES[r]) {
        RankIsPosition(CANONICAL[r]);
        NamesAre(CANONICAL[r]);
        assert Rank(CANONICAL[r]) == r && CANONICAL[r] in out;
      }
      if out != [] {
        assert out[0] in out;
        RankIsPosition(out[0]);
        assert Declares(fold, names, NAMES[Rank(out[0])]);
      }
    }
  }

  lemma NamesAre(level: Level)
    ensures Rank(level) < |NAMES| && Name(level) == NAMES[Rank(level)]
  {
  }

  lemma {:induction false} DeclaredAre(fold: string -> string, names: seq<string>, n: nat)
    requires n <= |CANONICAL|
    ensures forall l :: l in Declared(fold, names, CANONICAL[..n]) <==>
              Rank(l) < n && Declares(fold, names, Name(l))
  {
    if n > 0 {
      assert CANONICAL[..n][..n - 1] == CANONICAL[..n - 1];
      DeclaredAre(fold, names, n - 1);
      var before, out := Declared(fold, names, CANONICAL[..n - 1]), Declared(fold, names, CANONICAL[..n]);
      var last := CANONICAL[n - 1];
      assert out == before || out == before + [last];
      forall l ensures Rank(l) == n - 1 <==> l == last { RankIsPosition(l); }
    }
  }

  /** Without a positive budget the effort is "none" where zero is allowed and supported,
      else "auto" where that is allowed, else the weakest supported level; the effort
      "auto" is the dynamic sentinel where it is allowed, else the budget of the level
      nearest to "medium"; "none" where zero is allowed is no budget at all. */
  lemma Sentinels(fold: string -> string, budget: int, effort: string, ts: Option<Support>)
    ensures budget <= 0 ==>
              var supported := SupportedLevels(fold, ts);
              && supported != []
              && EffortFromBudget(fold, budget, ts) ==
                   if ts.Some? && ts.value.zeroAllowed && Off in supported then At(Off)
                   else if ts.Some? && ts.value.dynamicAllowed then Auto
                   else At(supported[0])
    ensures fold(effort) == "auto" ==>
              var supported := SupportedLevels(fold, ts);
              && supported != []
              && BudgetFromEffort(fold, effort, ts) ==
                   if ts.Some? && ts.value.dynamicAllowed then Some(-1)
                   else Some(Bounded(TableBudget(Nearest(Medium, supported)), ts))
    ensures fold(effort) == "none" && ts.Some? && ts.value.zeroAllowed ==>
              BudgetFromEffort(fold, effort, ts) == Some(0)
  {
    SupportedIsOrdered(fold, ts);
  }

  /** Bounds move a budget only to themselves, and only if it is outside of them; where
      they contradict each other the upper one holds. */
  lemma BoundsMove(budget: int, ts: Support)
    ensures var b := Bounded(budget, Some(ts));
            && Bounded(budget, None) == budget
            && (ts.max > 0 ==> b <= ts.max) && (ts.min > 0 && (ts.max <= 0 || ts.min <= ts.max) ==> b >= ts.min)
            && (b != budget ==> || (b == ts.min > 0 && budget < ts.min)
                                || (b == ts.max > 0 && (budget > ts.max || ts.min > ts.max)))
  {
  }

  /** Validation admits the names of supported levels, "auto" on a dynamic model and
      "none" on one that allows zero, and nothing else. */
  lemma AdmittedIff(fold: string -> string, effort: string, ts: Option<Support>)
    ensures ValidEffort(fold, effort, ts) <==>
            var e, supported := fold(effort), SupportedLevels(fold, ts);
            || (e == "auto" && ts.Some? && ts.value.dynamicAllowed)
            || (e == "none" && ts.Some? && ts.value.zeroAllowed)
            || exists k :: 0 <= k < |supported| && NAMES[Rank(supported[k])] == e
  {
    var e, supported := fold(effort), SupportedLevels(fold, ts);
    hide SupportedLevels;
    forall k | 0 <= k < |supported|
      ensures Name(supported[k]) == NAMES[Rank(supported[k])] && Name(supported[k]) != "auto"
    {
      NamesAre(supported[k]);
      NamesDiffer(supported[k], None);
    }
    hide Name;
    var named := LevelNamed(e, supported);
    if named.Some? { var k :| 0 <= k < |supported| && supported[k] == named.value; }
  }
}
