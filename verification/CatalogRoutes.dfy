/** Where the catalog routes each of its entries, and what a record says of its entry. */
module CatalogRoutes {
  import opened Basics
  import opened Catalog

  // ---- the families ----

  predicate OfFamily(lib: Library, id: string, k: nat)
    requires k < |PREFIX_ROUTES|
  {
    PREFIX_ROUTES[k].0 <= lib.lower(id)
  }

  /** The first two letters of the prefixes. */
  const FIRST := "smdmclcgggkqgsmh"
  const SECOND := "pueiaolerpiwltiy"

  lemma FirstLetters(k: nat)
    requires k < |PREFIX_ROUTES|
    ensures |FIRST| == |SECOND| == |PREFIX_ROUTES|
    ensures var p := PREFIX_ROUTES[k].0; |p| >= 2 && p[0] == FIRST[k] && p[1] == SECOND[k]
  {
    assert |FIRST| == 16 && |SECOND| == 16;
    if k < 8 {
      if k < 4 {
        if k == 0 {} else if k == 1 {} else if k == 2 {} else {}
      } else {
        if k == 4 {} else if k == 5 {} else if k == 6 {} else {}
      }
    } else {
      if k < 12 {
        if k == 8 {} else if k == 9 {} else if k == 10 {} else {}
      } else {
        if k == 12 {} else if k == 13 {} else if k == 14 {} else {}
      }
    }
  }

  /** No family's prefix begins with another's. */
  lemma FamiliesAreApart(j: nat, k: nat)
    requires j < k < |PREFIX_ROUTES|
    ensures !(PREFIX_ROUTES[j].0 <= PREFIX_ROUTES[k].0) && !(PREFIX_ROUTES[k].0 <= PREFIX_ROUTES[j].0)
  {
    FirstLetters(j);
    FirstLetters(k);
    if FIRST[j] == FIRST[k] && SECOND[j] == SECOND[k] {
      assert j == 3 && k == 14;
      assert PREFIX_ROUTES[3].0[2] == 'n' && PREFIX_ROUTES[14].0[2] == 'm';
    }
  }

  /** Of two prefixes of one text, one begins with the other. */
  lemma PrefixesNest(a: string, b: string, s: string)
    requires a <= s && b <= s
    ensures a <= b || b <= a
  {
    if |a| <= |b| { assert b[..|a|] == s[..|a|]; } else { assert a[..|b|] == s[..|b|]; }
  }

  /** An id is of one family at most, so the longest prefix wins in any order. */
  lemma OneFamily(lib: Library, id: string, j: nat, k: nat)
    requires j < |PREFIX_ROUTES| && k < |PREFIX_ROUTES| && OfFamily(lib, id, j) && OfFamily(lib, id, k)
    ensures j == k
  {
    PrefixesNest(PREFIX_ROUTES[j].0, PREFIX_ROUTES[k].0, lib.lower(id));
    if j < k { FamiliesAreApart(j, k); } else if k < j { FamiliesAreApart(k, j); }
  }

  lemma {:induction false} FamilyRouteIs(lib: Library, id: string, n: nat)
    requires n <= |PREFIX_ROUTES| && forall k | 0 <= k < n :: !OfFamily(lib, id, k)
    ensures match FamilyRoute(lib.lower(id), PREFIX_ROUTES[n..])
            case None => forall k | n <= k < |PREFIX_ROUTES| :: !OfFamily(lib, id, k)
            case Some(route) =>
              exists k :: n <= k < |PREFIX_ROUTES| && OfFamily(lib, id, k) && PREFIX_ROUTES[k].1 == route
    decreases |PREFIX_ROUTES| - n
  {
    if n < |PREFIX_ROUTES| {
      assert PREFIX_ROUTES[n..][1..] == PREFIX_ROUTES[n + 1..] && PREFIX_ROUTES[n..][0] == PREFIX_ROUTES[n];
      if !OfFamily(lib, id, n) { FamilyRouteIs(lib, id, n + 1); }
    }
  }

  lemma FamilyProtocols(k: nat)
    requires k < |PREFIX_ROUTES|
    ensures var (prefix, route) := PREFIX_ROUTES[k];
            route == if prefix in {"muse-spark", "grok", "gpt"} then Responses
                     else if prefix in {"minimax", "claude", "qwen"} then Messages
                     else if prefix == "gemini" then Gemini else ChatCompletions
  {
    FirstLetters(k);
  }

  // ---- one entry ----

  /** The user's override, whatever the family; else the family, with the protocol's
      own endpoint. */
  ghost predicate RoutedTo(lib: Library, cfg: Config, id: string, route: Route, endpoint: string) {
    if id in cfg.overrides then route == cfg.overrides[id].route && endpoint == cfg.overrides[id].endpoint
    else endpoint == "" && exists k :: 0 <= k < |PREFIX_ROUTES| && OfFamily(lib, id, k) && PREFIX_ROUTES[k].1 == route
  }

  ghost predicate Unrouted(lib: Library, cfg: Config, id: string) {
    id !in cfg.overrides && forall k | 0 <= k < |PREFIX_ROUTES| :: !OfFamily(lib, id, k)
  }

  predicate Allowed(cfg: Config, route: Route) {
    || (route == ChatCompletions && cfg.protocols.chatCompletions) || (route == Messages && cfg.protocols.messages)
    || (route == Responses && cfg.protocols.responses) || (route == Gemini && cfg.protocols.gemini)
  }

  /** The path of a protocol; Gemini's names the model. */
  function OwnPath(lib: Library, route: Route, id: string): string {
    match route
    case ChatCompletions => "/v1/chat/completions"
    case Messages => "/v1/messages"
    case Responses => "/v1/responses"
    case Gemini => "/v1/models" + "/" + lib.escape(id)
  }

  /** A record says of its entry what the entry says of itself, and where it is routed. */
  predicate Describes(lib: Library, cfg: Config, e: RawModel, route: Route, endpoint: string, r: ModelRecord) {
    && r.upstreamId == e.id && r.publicId == (if cfg.prefixEnabled then cfg.prefix + "/" + e.id else e.id)
    && r.protocol == route && r.endpoint == (if endpoint == "" then OwnPath(lib, route, e.id) else endpoint)
    && r.displayName == (if e.displayName == "" then e.id else e.displayName)
    && r.contextLimit == e.contextLength && r.outputLimit == e.maxOutputTokens
    && r.inputModes == (if e.inputModes == [] then e.inputModalities else e.inputModes)
    && r.outputModes == (if e.outputModes == [] then e.outputModalities else e.outputModes)
    && (r.thinking.Some? <==> e.thinking.Some?)
    && (e.thinking.Some? ==>
          var said, t := e.thinking.value, r.thinking.value;
          && t.min == (if said.min.Some? then said.min.value else 0)
          && t.max == (if said.max.Some? then said.max.value else 0)
          && (t.zeroAllowed <==> said.zeroAllowed == Some(true))
          && (t.dynamicAllowed <==> said.dynamicAllowed == Some(true)) && t.levels == said.levels)
  }

  /** What is to become of an entry, collisions aside. */
  ghost predicate Deserves(lib: Library, cfg: Config, e: RawModel, verdict: Result<ModelRecord, Reason>) {
    if Unrouted(lib, cfg, e.id) then verdict == Err(NoRoute)
    else
      exists route, endpoint ::
        RoutedTo(lib, cfg, e.id, route, endpoint) && Given(lib, cfg, e, route, endpoint, verdict)
  }

  predicate Given(lib: Library, cfg: Config, e: RawModel, route: Route, endpoint: string,
                  verdict: Result<ModelRecord, Reason>) {
    if !Allowed(cfg, route) then verdict == Err(Disabled(route))
    else if endpoint != "" && lib.escapesBase(cfg.baseUrl, endpoint) then verdict == Err(EscapesHost)
    else verdict.Ok? && Describes(lib, cfg, e, route, endpoint, verdict.value)
  }

  lemma RecordDescribes(lib: Library, cfg: Config, e: RawModel, route: Route, endpoint: string)
    ensures Describes(lib, cfg, e, route, endpoint, RecordOf(lib, cfg, e, route, endpoint))
  {
  }

  /** An entry is judged by its route alone: by its override's, if there is one. */
  lemma JudgedByPriority(lib: Library, cfg: Config, e: RawModel)
    ensures Deserves(lib, cfg, e, Judge(lib, cfg, e))
  {
    hide FamilyRoute, OfFamily;
    FamilyRouteIs(lib, e.id, 0);
    assert PREFIX_ROUTES[0..] == PREFIX_ROUTES;
    if !Unrouted(lib, cfg, e.id) {
      var (route, endpoint) := Resolve(lib, cfg, e).value;
      RecordDescribes(lib, cfg, e, route, endpoint);
      hide Describes, RecordOf;
      assert RoutedTo(lib, cfg, e.id, route, endpoint);
      assert Given(lib, cfg, e, route, endpoint, Judge(lib, cfg, e));
    }
  }

  // ---- a whole catalog ----

  /** The first entry with its id. */
  predicate First(entries: seq<RawModel>, k: nat) {
    k < |entries| && entries[k].id != "" && forall j | 0 <= j < k :: entries[j].id != entries[k].id
  }

  /** The entry has become the record it deserves, or is unsupported for the reason it
      deserves, or because another record holds one of its ids. */
  ghost predicate Settled(lib: Library, cfg: Config, s: Snapshot, e: RawModel) {
    exists verdict :: Deserves(lib, cfg, e, verdict) && Shown(s, e.id, verdict)
  }

  ghost predicate Shown(s: Snapshot, id: string, verdict: Result<ModelRecord, Reason>) {
    match verdict
    case Err(reason) => UnsupportedModel(id, reason) in s.unsup
    case Ok(r) => r in s.models || exists u :: u in s.unsup && u.upstreamId == id && u.reason.Collides?
  }

  /** Entries are only ever added to. */
  lemma AddsOnly(lib: Library, cfg: Config, s: Snapshot, e: RawModel)
    ensures var s' := AddEntry(lib, cfg, s, e);
            s.models <= s'.models && s.unsup <= s'.unsup && s.warns <= s'.warns
  {
    hide Judge, ResolveWarnings;
  }

  lemma EntryIsSettled(lib: Library, cfg: Config, s: Snapshot, e: RawModel)
    requires e.id != "" && e.id !in s.seen
    ensures var s' := AddEntry(lib, cfg, s, e);
            && Settled(lib, cfg, s', e)
            && (e.id in cfg.overrides ==>
                  Overridden(e.id, cfg.overrides[e.id].route, cfg.overrides[e.id].endpoint) in s'.warns)
  {
    hide Judge, Deserves;
    JudgedByPriority(lib, cfg, e);
    var verdict, s' := Judge(lib, cfg, e), AddEntry(lib, cfg, s, e);
    match verdict
    case Err(reason) => assert UnsupportedModel(e.id, reason) in s'.unsup;
    case Ok(r) =>
      JudgedIsOwn(lib, cfg, e);
      if r !in s'.models { assert s'.unsup[|s.unsup|].upstreamId == e.id && s'.unsup[|s.unsup|] in s'.unsup; }
    assert Shown(s', e.id, verdict);
  }

  lemma JudgedIsOwn(lib: Library, cfg: Config, e: RawModel)
    ensures Judge(lib, cfg, e).Ok? ==> Judge(lib, cfg, e).value.upstreamId == e.id
  {
  }

  lemma SettledStays(lib: Library, cfg: Config, s: Snapshot, s': Snapshot, e: RawModel)
    requires Settled(lib, cfg, s, e) && s.models <= s'.models && s.unsup <= s'.unsup
    ensures Settled(lib, cfg, s', e)
  {
    hide Deserves;
    var verdict :| Deserves(lib, cfg, e, verdict) && Shown(s, e.id, verdict);
    assert Shown(s', e.id, verdict);
  }

  /** In every catalog the first entry of each id is settled by its route, and an
      override shows among the warnings. */
  lemma {:induction false} EveryEntryIsRouted(lib: Library, cfg: Config, entries: seq<RawModel>, extra: seq<Warning>,
                                              k: nat)
    requires First(entries, k)
    ensures var s, e := Rebuild(lib, cfg, entries, extra), entries[k];
            && Settled(lib, cfg, s, e)
            && (e.id in cfg.overrides ==>
                  Overridden(e.id, cfg.overrides[e.id].route, cfg.overrides[e.id].endpoint) in s.warns)
    decreases |entries|
  {
    hide AddEntry, Settled;
    var init, last := entries[..|entries| - 1], entries[|entries| - 1];
    var s := Rebuild(lib, cfg, init, extra);
    AddsOnly(lib, cfg, s, last);
    if k < |init| {
      EveryEntryIsRouted(lib, cfg, init, extra, k);
      SettledStays(lib, cfg, s, AddEntry(lib, cfg, s, last), entries[k]);
    } else {
      EveryEntryAccountedOnce(lib, cfg, init, extra, last.id);
      NoneBefore(init, last.id);
      EntryIsSettled(lib, cfg, s, last);
    }
  }

  lemma {:induction false} NoneBefore(entries: seq<RawModel>, id: string)
    requires forall j | 0 <= j < |entries| :: entries[j].id != id
    ensures CountEntries(entries, id) == 0
    decreases |entries|
  {
    if entries != [] { NoneBefore(entries[..|entries| - 1], id); }
  }

  ghost predicate FromEntry(lib: Library, cfg: Config, entries: seq<RawModel>, r: ModelRecord) {
    exists k: nat, route, endpoint ::
      First(entries, k) && RoutedTo(lib, cfg, entries[k].id, route, endpoint) && Allowed(cfg, route)
      && Describes(lib, cfg, entries[k], route, endpoint, r)
  }

  /** Every record is that of the first entry with its id, routed by its override if
      there is one and by its family otherwise, over a protocol that is on. */
  lemma {:induction false} EveryRecordIsRouted(lib: Library, cfg: Config, entries: seq<RawModel>, extra: seq<Warning>)
    ensures forall r | r in Rebuild(lib, cfg, entries, extra).models :: FromEntry(lib, cfg, entries, r)
    decreases |entries|
  {
    hide Judge, Describes, RoutedTo, ResolveWarnings;
    if entries != [] {
      var init, e := entries[..|entries| - 1], entries[|entries| - 1];
      EveryRecordIsRouted(lib, cfg, init, extra);
      var s, s' := Rebuild(lib, cfg, init, extra), Rebuild(lib, cfg, entries, extra);
      forall r | r in s'.models ensures FromEntry(lib, cfg, entries, r) {
        if r in s.models {
          var k: nat, route, endpoint :|
            First(init, k) && RoutedTo(lib, cfg, init[k].id, route, endpoint) && Allowed(cfg, route)
            && Describes(lib, cfg, init[k], route, endpoint, r);
          assert First(entries, k) && entries[k] == init[k];
        } else {
          NewRecordIsRouted(lib, cfg, entries, extra, r);
        }
      }
    }
  }

  lemma {:induction false} NewRecordIsRouted(lib: Library, cfg: Config, entries: seq<RawModel>, extra: seq<Warning>,
                                             r: ModelRecord)
    requires entries != [] && r in Rebuild(lib, cfg, entries, extra).models
    requires r !in Rebuild(lib, cfg, entries[..|entries| - 1], extra).models
    ensures FromEntry(lib, cfg, entries, r)
  {
    var n := |entries| - 1;
    var init, e := entries[..n], entries[n];
    JudgedByPriority(lib, cfg, e);
    EveryEntryAccountedOnce(lib, cfg, init, extra, e.id);
    hide Describes, RoutedTo, Deserves;
    NewIsJudged(lib, cfg, Rebuild(lib, cfg, init, extra), e, r);
    hide Judge, Rebuild, CountEntries, CountModels, CountUnsupported, First;
    DeservedIsRouted(lib, cfg, e, r);
    SeenBefore(init, e.id);
    FirstIsLast(entries);
    var route, endpoint :| RoutedTo(lib, cfg, e.id, route, endpoint) && Allowed(cfg, route)
                           && Describes(lib, cfg, e, route, endpoint, r);
  }

  lemma FirstIsLast(entries: seq<RawModel>)
    requires entries != [] && entries[|entries| - 1].id != ""
    requires var init := entries[..|entries| - 1];
             forall j | 0 <= j < |init| :: init[j].id != entries[|entries| - 1].id
    ensures First(entries, |entries| - 1)
  {
    var init := entries[..|entries| - 1];
    forall j | 0 <= j < |init| ensures entries[j] == init[j] {
    }
  }

  lemma NewIsJudged(lib: Library, cfg: Config, s: Snapshot, e: RawModel, r: ModelRecord)
    requires r in AddEntry(lib, cfg, s, e).models && r !in s.models
    ensures e.id != "" && e.id !in s.seen && Judge(lib, cfg, e) == Ok(r)
  {
    hide Judge, ResolveWarnings;
  }

  lemma DeservedIsRouted(lib: Library, cfg: Config, e: RawModel, r: ModelRecord)
    requires Deserves(lib, cfg, e, Ok(r))
    ensures exists route, endpoint ::
              RoutedTo(lib, cfg, e.id, route, endpoint) && Allowed(cfg, route)
              && Describes(lib, cfg, e, route, endpoint, r)
  {
    hide RoutedTo, Unrouted, Describes;
    var route, endpoint :| RoutedTo(lib, cfg, e.id, route, endpoint) && Given(lib, cfg, e, route, endpoint, Ok(r));
    assert Describes(lib, cfg, e, route, endpoint, r);
  }

  lemma {:induction false} SeenBefore(entries: seq<RawModel>, id: string)
    requires CountEntries(entries, id) == 0
    ensures forall j | 0 <= j < |entries| :: entries[j].id != id
    decreases |entries|
  {
    if entries != [] { SeenBefore(entries[..|entries| - 1], id); }
  }

  // ---- the diagnostics ----

  /** What one more entry adds to the warnings: a repeated id is one; a first entry
      shows its override, and its collision with the ids that its reason names. */
  lemma {:induction false} WarningsSay(lib: Library, cfg: Config, before: seq<RawModel>, e: RawModel,
                                       extra: seq<Warning>)
    ensures var s, s' := Rebuild(lib, cfg, before, extra), Rebuild(lib, cfg, before + [e], extra);
            if e.id == "" then s'.warns == s.warns && s'.unsup == s.unsup + [UnsupportedModel("", MissingId)]
            else if CountEntries(before, e.id) > 0 then s' == s.(warns := s.warns + [Duplicate(e.id)])
            else
              var shown := if e.id !in cfg.overrides then []
                           else [Overridden(e.id, cfg.overrides[e.id].route, cfg.overrides[e.id].endpoint)];
              var clashes := if |s'.unsup| == |s.unsup| then []
                             else match s'.unsup[|s'.unsup| - 1].reason
                               case Collides(publicId, upstreamId) => [Collision(publicId, upstreamId)]
                               case _ => [];
              s.unsup <= s'.unsup && s'.warns == s.warns + shown + clashes
  {
    assert (before + [e])[..|before|] == before;
    EveryEntryAccountedOnce(lib, cfg, before, extra, e.id);
    var s := Rebuild(lib, cfg, before, extra);
    hide Rebuild, CountEntries, CountModels, CountUnsupported;
    JudgedNeverCollides(lib, cfg, e);
    hide Judge;
    var shown := ResolveWarnings(cfg, e);
    assert s.warns + shown + [] == s.warns + shown && s.warns + [] == s.warns;
  }

  lemma JudgedNeverCollides(lib: Library, cfg: Config, e: RawModel)
    ensures Judge(lib, cfg, e).Err? ==> !Judge(lib, cfg, e).error.Collides?
    ensures Judge(lib, cfg, e).Ok? ==> Judge(lib, cfg, e).value.upstreamId == e.id
  {
  }
}
