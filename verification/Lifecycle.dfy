/** The plugin's lifecycle: register, reconfigure and shutdown, serialized by one
    lock, against the background loop that refreshes the served catalog.  Steps of
    the call and of every loop interleave in any order. */
module Lifecycle {
  import opened Basics
  import opened Catalog
  import opened CatalogManager

  /** A catalog manager: its config, the entries it retains, and what it serves. */
  datatype Cat = Cat(cfg: Config, raw: seq<RawModel>, snap: Snapshot)

  datatype Phase = Waiting | Ticking | Exited

  /** stopped tells that the loop's stop channel was closed. */
  datatype Loop = Loop(cat: nat, phase: Phase, stopped: bool)

  /** How far the call that holds the lifecycle lock has come; next is what it
      will install: a config and a manager, or nothing for a shutdown. */
  datatype Call =
    | Idle
    | Loading(cfg: Config)
    | Refreshed(cat: nat, failed: bool)
    | ShuttingDown
    | Stopping(next: Option<(nat, bool)>, loop: Option<nat>)
    | Stopped(next: Option<(nat, bool)>)

  /** served is the published config and manager, tracked the loop whose stop
      and done channels are stored. */
  datatype State = State(cats: seq<Cat>, loops: seq<Loop>, served: Option<(Config, nat)>, tracked: Option<nat>,
                         call: Call)

  const FRESH := State([], [], None, None, Idle)

  datatype Step =
    | Begin(cfg: Config)
    | BeginShutdown
    | AuthFails
    | FirstRefresh(fetch: Fetch)
    | CloseStop
    | AwaitDone
    | Install
    | Clear
    | TickBegins(loop: nat)
    | TickEnds(loop: nat, fetch: Fetch)
    | LoopExits(loop: nat)

  function Build(lib: Library, cfg: Config, raw: seq<RawModel>, extra: seq<Warning>): Cat {
    Cat(cfg, raw, Rebuild(lib, cfg, raw, extra))
  }

  /** One refresh of a manager under its own config. */
  function Refreshing(lib: Library, limit: int, cat: Cat, fetch: Fetch): Cat {
    match Usable(fetch, limit)
    case Some((entries, extra)) => Build(lib, cat.cfg, entries, extra)
    case None => if cat.cfg.staleWhileUnavailable then cat else Build(lib, cat.cfg, [], [])
  }

  /** The manager a call publishes: seeded from the one served so far when its own
      first refresh failed and its config keeps stale snapshots. */
  function Seeded(lib: Library, s: State, n: nat, failed: bool): Cat
    requires n < |s.cats|
  {
    var cat := s.cats[n];
    if failed && cat.cfg.staleWhileUnavailable && s.served.Some? && s.served.value.1 < |s.cats|
       && s.cats[s.served.value.1].snap.models != []
    then Build(lib, cat.cfg, s.cats[s.served.value.1].raw, [])
    else cat
  }

  function Apply(lib: Library, limit: int, s: State, step: Step): Option<State> {
    match step
    case Begin(cfg) => if s.call.Idle? then Some(s.(call := Loading(cfg))) else None
    case BeginShutdown => if s.call.Idle? then Some(s.(call := ShuttingDown)) else None
    case AuthFails => if s.call.Loading? then Some(s.(call := Idle)) else None
    case FirstRefresh(fetch) =>
      if s.call.Loading? then
        var cat := Refreshing(lib, limit, Build(lib, s.call.cfg, [], []), fetch);
        Some(s.(cats := s.cats + [cat], call := Refreshed(|s.cats|, Usable(fetch, limit).None?)))
      else None
    case CloseStop =>
      if s.call.Refreshed? || s.call.ShuttingDown? then
        var next := if s.call.Refreshed? then Some((s.call.cat, s.call.failed)) else None;
        match s.tracked
        case None => Some(s.(call := Stopping(next, None)))
        case Some(l) =>
          // Closing a closed channel would panic.
          if l < |s.loops| && !s.loops[l].stopped
          then Some(s.(loops := s.loops[l := s.loops[l].(stopped := true)], tracked := None,
                       call := Stopping(next, Some(l))))
          else None
      else None
    case AwaitDone =>
      if s.call.Stopping?
      && (s.call.loop.None? || (s.call.loop.value < |s.loops| && s.loops[s.call.loop.value].phase.Exited?))
      then Some(s.(call := Stopped(s.call.next)))
      else None
    case Install =>
      if s.call.Stopped? && s.call.next.Some? && s.call.next.value.0 < |s.cats| then
        var n := s.call.next.value.0;
        var cat := Seeded(lib, s, n, s.call.next.value.1);
        Some(State(s.cats[n := cat], s.loops + [Loop(n, Waiting, false)], Some((cat.cfg, n)), Some(|s.loops|), Idle))
      else None
    case Clear =>
      if s.call.Stopped? && s.call.next.None? then Some(s.(served := None, call := Idle)) else None
    case TickBegins(l) =>
      if l < |s.loops| && s.loops[l].phase.Waiting? then Some(s.(loops := s.loops[l := s.loops[l].(phase := Ticking)]))
      else None
    case TickEnds(l, fetch) =>
      if l < |s.loops| && s.loops[l].phase.Ticking? && s.loops[l].cat < |s.cats| then
        var n := s.loops[l].cat;
        Some(s.(loops := s.loops[l := s.loops[l].(phase := Waiting)],
                cats := s.cats[n := Refreshing(lib, limit, s.cats[n], fetch)]))
      else None
    case LoopExits(l) =>
      if l < |s.loops| && s.loops[l].phase.Waiting? && s.loops[l].stopped
      then Some(s.(loops := s.loops[l := s.loops[l].(phase := Exited)]))
      else None
  }

  function Run(lib: Library, limit: int, steps: seq<Step>): Option<State> {
    if steps == [] then Some(FRESH)
    else
      match Run(lib, limit, steps[..|steps| - 1])
      case None => None
      case Some(s) => Apply(lib, limit, s, steps[|steps| - 1])
  }

  // ---- what every step keeps ----

  /** A manager serves the rebuild of what it retains, under its own config; the one
      diagnostic beside the entries' own is that of a response without data. */
  ghost predicate Rebuilt(lib: Library, cat: Cat) {
    || cat.snap == Rebuild(lib, cat.cfg, cat.raw, [])
    || (cat.raw == [] && cat.snap == Rebuild(lib, cat.cfg, [], [SHAPE_DRIFT]))
  }

  /** The loop that may be alive: the tracked one, or the one being stopped. */
  function Current(s: State): Option<nat> {
    if s.tracked.Some? then s.tracked else if s.call.Stopping? then s.call.loop else None
  }

  /** The manager a call in progress has built but not published. */
  function Building(s: State): Option<nat> {
    match s.call
    case Refreshed(n, _) => Some(n)
    case Stopping(Some((n, _)), _) => Some(n)
    case Stopped(Some((n, _))) => Some(n)
    case _ => None
  }

  /** Whether the manager being built failed its first refresh. */
  predicate FailedFirst(s: State) {
    match s.call
    case Refreshed(_, failed) => failed
    case Stopping(Some((_, failed)), _) => failed
    case Stopped(Some((_, failed))) => failed
    case _ => false
  }

  /** Such a manager has nothing yet. */
  ghost predicate FailedIsEmpty(lib: Library, s: State) {
    FailedFirst(s) && Building(s).Some? && Building(s).value < |s.cats| ==>
      var cat := s.cats[Building(s).value]; cat == Build(lib, cat.cfg, [], [])
  }

  ghost predicate Invariant(lib: Library, s: State) {
    && (forall n | 0 <= n < |s.cats| :: Rebuilt(lib, s.cats[n]))
    && (s.served.Some? ==> s.served.value.1 < |s.cats| && s.cats[s.served.value.1].cfg == s.served.value.0)
    && (Building(s).Some? ==>
        Building(s).value < |s.cats| && (s.served.Some? ==> s.served.value.1 != Building(s).value))
    && (s.tracked.Some? ==> s.tracked.value < |s.loops| && !s.loops[s.tracked.value].stopped && s.served.Some?
                            && s.loops[s.tracked.value].cat == s.served.value.1
                            && !s.loops[s.tracked.value].phase.Exited?)
    && (s.tracked.Some? ==> !s.call.Stopping? && !s.call.Stopped?)
    && (s.tracked.None? && s.served.Some? ==> s.call.Stopping? || s.call.Stopped?)
    && (s.call.Stopping? && s.call.loop.Some? ==> s.call.loop.value < |s.loops| && s.loops[s.call.loop.value].stopped)
    && (forall l | 0 <= l < |s.loops| && !s.loops[l].phase.Exited? ::
        Current(s) == Some(l) && s.served.Some? && s.loops[l].cat == s.served.value.1)
  }

  lemma RefreshIsRebuilt(lib: Library, limit: int, cat: Cat, fetch: Fetch)
    requires Rebuilt(lib, cat)
    ensures Rebuilt(lib, Refreshing(lib, limit, cat, fetch)) && Refreshing(lib, limit, cat, fetch).cfg == cat.cfg
  {
    hide Rebuild;
  }

  lemma SeededIsRebuilt(lib: Library, s: State, n: nat, failed: bool)
    requires n < |s.cats| && Rebuilt(lib, s.cats[n])
    ensures Rebuilt(lib, Seeded(lib, s, n, failed)) && Seeded(lib, s, n, failed).cfg == s.cats[n].cfg
  {
    hide Rebuild;
  }

  /** A new manager: rebuilt, and empty if its first refresh failed. */
  lemma FirstIsRebuilt(lib: Library, limit: int, cfg: Config, fetch: Fetch)
    ensures var cat := Refreshing(lib, limit, Build(lib, cfg, [], []), fetch);
            Rebuilt(lib, cat) && cat.cfg == cfg && (Usable(fetch, limit).None? ==> cat == Build(lib, cfg, [], []))
  {
    hide Rebuild, Usable;
    RefreshIsRebuilt(lib, limit, Build(lib, cfg, [], []), fetch);
  }

  /** The steps that leave all managers alone. */
  lemma {:induction false} ControlKeeps(lib: Library, limit: int, s: State, step: Step)
    requires Invariant(lib, s) && Apply(lib, limit, s, step).Some?
    requires !step.FirstRefresh? && !step.TickEnds? && !step.Install?
    ensures Invariant(lib, Apply(lib, limit, s, step).value)
  {
    hide Rebuilt, Refreshing, Seeded, Build, Usable;
  }

  lemma {:induction false} StepKeeps(lib: Library, limit: int, s: State, step: Step)
    requires Invariant(lib, s) && Apply(lib, limit, s, step).Some?
    ensures Invariant(lib, Apply(lib, limit, s, step).value)
  {
    hide Rebuilt, Refreshing, Seeded, Build, Usable;
    match step
    case FirstRefresh(fetch) => FirstIsRebuilt(lib, limit, s.call.cfg, fetch);
    case TickEnds(l, fetch) => RefreshIsRebuilt(lib, limit, s.cats[s.loops[l].cat], fetch);
    case Install => SeededIsRebuilt(lib, s, s.call.next.value.0, s.call.next.value.1);
    case _ =>
      hide Invariant, Apply;
      ControlKeeps(lib, limit, s, step);
  }

  lemma {:induction false} StepKeepsEmpty(lib: Library, limit: int, s: State, step: Step)
    requires Invariant(lib, s) && FailedIsEmpty(lib, s) && Apply(lib, limit, s, step).Some?
    ensures FailedIsEmpty(lib, Apply(lib, limit, s, step).value)
  {
    hide Rebuilt, Refreshing, Seeded, Build, Usable;
    match step
    case FirstRefresh(fetch) => FirstIsRebuilt(lib, limit, s.call.cfg, fetch);
    case TickEnds(l, fetch) => assert !s.loops[l].phase.Exited?;
    case _ =>
  }

  lemma {:induction false} RunKeeps(lib: Library, limit: int, steps: seq<Step>)
    requires Run(lib, limit, steps).Some?
    ensures Invariant(lib, Run(lib, limit, steps).value) && FailedIsEmpty(lib, Run(lib, limit, steps).value)
    decreases |steps|
  {
    if steps != [] {
      hide Apply, Invariant, FailedIsEmpty;
      RunKeeps(lib, limit, steps[..|steps| - 1]);
      StepKeeps(lib, limit, Run(lib, limit, steps[..|steps| - 1]).value, steps[|steps| - 1]);
      StepKeepsEmpty(lib, limit, Run(lib, limit, steps[..|steps| - 1]).value, steps[|steps| - 1]);
    }
  }

  // ---- the theorems, for every sequence of calls and ticks ----

  /** What is served is the rebuild of the retained entries under the config that
      is published with it: models, index and unsupported list, and its warnings, to
      which only a response without data adds one. */
  lemma ServedIsTheRebuild(lib: Library, limit: int, steps: seq<Step>)
    requires Run(lib, limit, steps).Some? && Run(lib, limit, steps).value.served.Some?
    ensures var s := Run(lib, limit, steps).value;
            var (cfg, n) := s.served.value;
            && n < |s.cats| && s.cats[n].cfg == cfg
            && s.cats[n].snap.(warns := []) == Rebuild(lib, cfg, s.cats[n].raw, []).(warns := [])
            && (s.cats[n].snap == Rebuild(lib, cfg, s.cats[n].raw, [])
                || (s.cats[n].raw == [] && s.cats[n].snap == Rebuild(lib, cfg, [], [SHAPE_DRIFT])))
  {
    hide Rebuild;
    RunKeeps(lib, limit, steps);
    var s := Run(lib, limit, steps).value;
    assert Rebuilt(lib, s.cats[s.served.value.1]);
    ExtraWarningsOnly(lib, s.served.value.0, [], [SHAPE_DRIFT]);
  }

  /** At most one loop is ever alive.  Outside a call one is if anything is served: the
      tracked one, which has not been told to stop and refreshes what is served. */
  lemma OneLoopAlive(lib: Library, limit: int, steps: seq<Step>)
    requires Run(lib, limit, steps).Some?
    ensures var s := Run(lib, limit, steps).value;
            && (forall j, k | 0 <= j < |s.loops| && 0 <= k < |s.loops| ::
                  !s.loops[j].phase.Exited? && !s.loops[k].phase.Exited? ==> j == k)
            && (s.call.Idle? ==>
                 && (s.served.Some? <==> s.tracked.Some?)
                 && (s.tracked.Some? ==> s.tracked.value < |s.loops| && !s.loops[s.tracked.value].phase.Exited?)
                 && (forall l | 0 <= l < |s.loops| && !s.loops[l].phase.Exited? ::
                       s.tracked == Some(l) && !s.loops[l].stopped && s.loops[l].cat == s.served.value.1))
  {
    RunKeeps(lib, limit, steps);
  }

  /** Nothing is refreshed behind the published state: when a call is about to
      publish or clear, no loop is alive. */
  lemma NoLoopWhilePublishing(lib: Library, limit: int, steps: seq<Step>)
    requires Run(lib, limit, steps).Some? && Run(lib, limit, steps).value.call.Stopped?
    ensures var s := Run(lib, limit, steps).value;
            forall l | 0 <= l < |s.loops| :: s.loops[l].phase.Exited?
  {
    RunKeeps(lib, limit, steps);
  }

  /** A reconfigure during an outage, in every interleaving that reaches its install:
      if the new config keeps stale snapshots and something was served, the entries
      the old manager retained by then are served on, judged anew under the new
      config, so a protocol it disables is gone at once; otherwise nothing is served. */
  lemma {:induction false} OutageRejudges(lib: Library, limit: int, steps: seq<Step>)
    requires Run(lib, limit, steps).Some? && Apply(lib, limit, Run(lib, limit, steps).value, Install).Some?
    requires FailedFirst(Run(lib, limit, steps).value)
    ensures var s := Run(lib, limit, steps).value;
            var s' := Apply(lib, limit, s, Install).value;
            && s'.served.Some? && s'.served.value.1 < |s'.cats| && s.call.Stopped? && s.call.next.Some?
            && var (cfg, n) := s'.served.value;
            && n == s.call.next.value.0 < |s.cats| && s.cats[n].cfg == cfg && AllEnabled(cfg, s'.cats[n].snap.models)
            && if cfg.staleWhileUnavailable && s.served.Some? && s.served.value.1 < |s.cats|
                  && s.cats[s.served.value.1].snap.models != []
               then var kept := s.cats[s.served.value.1].raw;
                    s'.cats[n].raw == kept && s'.cats[n].snap == Rebuild(lib, cfg, kept, [])
               else s'.cats[n].raw == [] && s'.cats[n].snap.models == [] && s'.cats[n].snap.index == map[]
  {
    hide Run, Invariant;
    RunKeeps(lib, limit, steps);
    var s := Run(lib, limit, steps).value;
    var n := s.call.next.value.0;
    var cfg := s.cats[n].cfg;
    OnlyEnabledRoutes(lib, cfg, [], []);
    if s.served.Some? && s.served.value.1 < |s.cats| { OnlyEnabledRoutes(lib, cfg, s.cats[s.served.value.1].raw, []); }
    assert Rebuild(lib, cfg, [], []) == Snapshot([], map[], [], [], {});
    hide Rebuild;
  }

  // ---- what calls and ticks bring about ----

  /** The config of the last call that began one. */
  function LastBegun(steps: seq<Step>): Option<Config> {
    if steps == [] then None
    else match steps[|steps| - 1]
      case Begin(cfg) => Some(cfg)
      case _ => LastBegun(steps[..|steps| - 1])
  }

  /** A call works on the config it began with. */
  ghost predicate WorksOn(s: State, begun: Option<Config>) {
    && (s.call.Loading? ==> begun == Some(s.call.cfg))
    && (Building(s).Some? ==> Building(s).value < |s.cats| && begun == Some(s.cats[Building(s).value].cfg))
  }

  lemma {:induction false} CallsWorkOn(lib: Library, limit: int, steps: seq<Step>)
    requires Run(lib, limit, steps).Some?
    ensures WorksOn(Run(lib, limit, steps).value, LastBegun(steps))
    decreases |steps|
  {
    if steps != [] {
      hide Apply, WorksOn, LastBegun;
      var init, step := steps[..|steps| - 1], steps[|steps| - 1];
      CallsWorkOn(lib, limit, init);
      StepWorksOn(lib, limit, Run(lib, limit, init).value, step, LastBegun(init));
      LastBegunIs(steps);
    }
  }

  lemma LastBegunIs(steps: seq<Step>)
    requires steps != []
    ensures var step := steps[|steps| - 1];
            LastBegun(steps) == if step.Begin? then Some(step.cfg) else LastBegun(steps[..|steps| - 1])
  {
  }

  lemma {:induction false} StepWorksOn(lib: Library, limit: int, s: State, step: Step, begun: Option<Config>)
    requires WorksOn(s, begun) && Apply(lib, limit, s, step).Some?
    ensures WorksOn(Apply(lib, limit, s, step).value, if step.Begin? then Some(step.cfg) else begun)
  {
    hide Build, Refreshing, Usable, Seeded;
    match step
    case FirstRefresh(fetch) =>
      KeepsConfig(lib, limit, Build(lib, s.call.cfg, [], []), fetch);
      BuildHasConfig(lib, s.call.cfg);
    case TickEnds(l, fetch) => KeepsConfig(lib, limit, s.cats[s.loops[l].cat], fetch);
    case _ =>
  }

  lemma BuildHasConfig(lib: Library, cfg: Config)
    ensures Build(lib, cfg, [], []).cfg == cfg
  {
    hide Rebuild;
  }

  lemma KeepsConfig(lib: Library, limit: int, cat: Cat, fetch: Fetch)
    ensures Refreshing(lib, limit, cat, fetch).cfg == cat.cfg
  {
    hide Rebuild, Usable;
  }

  /** A successful reconfigure publishes the config it began with, and its own catalog if
      the first refresh brought one; a shutdown publishes nothing, and leaves no loop
      alive; an authentication failure leaves everything as it was. */
  lemma CallsPublish(lib: Library, limit: int, steps: seq<Step>, step: Step)
    requires Run(lib, limit, steps).Some? && Apply(lib, limit, Run(lib, limit, steps).value, step).Some?
    ensures var s, s' := Run(lib, limit, steps).value, Apply(lib, limit, Run(lib, limit, steps).value, step).value;
            && (step.Install? ==>
                  && s'.call.Idle? && LastBegun(steps).Some? && s'.served.Some?
                  && s'.served.value.0 == LastBegun(steps).value && (!FailedFirst(s) ==> s'.cats == s.cats)
                  && s'.tracked.Some? && s'.tracked.value < |s'.loops| && s'.loops[s'.tracked.value].phase.Waiting?)
            && (step.Clear? ==>
                  s'.served.None? && s'.call.Idle? && forall l | 0 <= l < |s'.loops| :: s'.loops[l].phase.Exited?)
            && (step.AuthFails? ==> s' == s.(call := Idle))
  {
    hide Run, Rebuild, Usable, Refreshing, Invariant;
    CallsWorkOn(lib, limit, steps);
    RunKeeps(lib, limit, steps);
    if step.Clear? { NoLoopWhilePublishing(lib, limit, steps); }
    if step.Install? {
      var s := Run(lib, limit, steps).value;
      SeededKeepsConfig(lib, s, s.call.next.value.0, s.call.next.value.1);
    }
  }

  lemma SeededKeepsConfig(lib: Library, s: State, n: nat, failed: bool)
    requires n < |s.cats|
    ensures Seeded(lib, s, n, failed).cfg == s.cats[n].cfg
  {
    hide Rebuild;
  }

  /** A response that can be served: complete within the budget, of status 200, decoded. */
  predicate Good(fetch: Fetch, limit: int) {
    && fetch.Response? && fetch.status == 200 && !fetch.body.Invalid?
    && (fetch.length <= 16777216 || fetch.length <= limit)
  }

  /** What a refresh makes of a manager: the entries of a good response, with a warning
      where it had none at all; otherwise what it had or nothing, by the stale policy. */
  ghost predicate RefreshedTo(lib: Library, limit: int, cat: Cat, fetch: Fetch, cat': Cat) {
    && cat'.cfg == cat.cfg
    && if Good(fetch, limit) then
         (match fetch.body
          case Entries(entries) => cat'.raw == entries && cat'.snap == Rebuild(lib, cat.cfg, entries, [])
          case _ => cat'.raw == [] && cat'.snap == Rebuild(lib, cat.cfg, [], [SHAPE_DRIFT]))
       else if cat.cfg.staleWhileUnavailable then cat' == cat
       else cat'.raw == [] && cat'.snap == Rebuild(lib, cat.cfg, [], [])
  }

  lemma RefreshingIs(lib: Library, limit: int, cat: Cat, fetch: Fetch)
    ensures RefreshedTo(lib, limit, cat, fetch, Refreshing(lib, limit, cat, fetch))
    ensures Usable(fetch, limit).Some? <==> Good(fetch, limit)
  {
    hide Rebuild;
  }

  /** A tick refreshes the manager that is served, and nothing else. */
  lemma TicksRefreshTheServed(lib: Library, limit: int, steps: seq<Step>, l: nat, fetch: Fetch)
    requires Run(lib, limit, steps).Some? && Apply(lib, limit, Run(lib, limit, steps).value, TickEnds(l, fetch)).Some?
    ensures var s := Run(lib, limit, steps).value;
            var s' := Apply(lib, limit, s, TickEnds(l, fetch)).value;
            && s.served.Some? && s'.served == s.served && s'.call == s.call && |s'.cats| == |s.cats|
            && var n := s.served.value.1;
            && n < |s.cats| && RefreshedTo(lib, limit, s.cats[n], fetch, s'.cats[n])
            && forall k | 0 <= k < |s.cats| && k != n :: s'.cats[k] == s.cats[k]
  {
    hide Run, Rebuild, Usable, Refreshing, RefreshedTo, Rebuilt;
    RunKeeps(lib, limit, steps);
    var s := Run(lib, limit, steps).value;
    assert !s.loops[l].phase.Exited?;
    RefreshingIs(lib, limit, s.cats[s.loops[l].cat], fetch);
  }

  /** The first refresh of a new manager starts from nothing, and its failure is what
      lets an install serve the old entries. */
  lemma FirstRefreshStarts(lib: Library, limit: int, steps: seq<Step>, fetch: Fetch)
    requires Run(lib, limit, steps).Some? && Apply(lib, limit, Run(lib, limit, steps).value, FirstRefresh(fetch)).Some?
    ensures var s := Run(lib, limit, steps).value;
            var s' := Apply(lib, limit, s, FirstRefresh(fetch)).value;
            && s.call.Loading? && s'.cats == s.cats + [s'.cats[|s.cats|]] && s'.served == s.served
            && RefreshedTo(lib, limit, Build(lib, s.call.cfg, [], []), fetch, s'.cats[|s.cats|])
            && s'.call == Refreshed(|s.cats|, !Good(fetch, limit))
  {
    hide Run, Rebuild, Usable, Refreshing, RefreshedTo, Build;
    var s := Run(lib, limit, steps).value;
    RefreshingIs(lib, limit, Build(lib, s.call.cfg, [], []), fetch);
  }
}
