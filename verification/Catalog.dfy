/** The model catalog: decoded upstream entries become routable records and an
    index over both of their ids. */
module Catalog {
  import opened Basics

  datatype Route = ChatCompletions | Messages | Responses | Gemini

  function EndpointPath(r: Route): string {
    match r
    case ChatCompletions => "/v1/chat/completions"
    case Messages => "/v1/messages"
    case Responses => "/v1/responses"
    case Gemini => "/v1/models"
  }

  datatype Override = Override(route: Route, endpoint: string)

  datatype Protocols = Protocols(chatCompletions: bool, messages: bool, responses: bool, gemini: bool)

  datatype Config = Config(prefixEnabled: bool, prefix: string, protocols: Protocols, overrides: map<string, Override>,
                           baseUrl: string, staleWhileUnavailable: bool)

  /** Library functions the catalog calls, arbitrary here: strings.ToLower,
      url.PathEscape, and whether a joined URL leaves the configured host. */
  datatype Library = Library(lower: string -> string, escape: string -> string, escapesBase: (string, string) -> bool)

  datatype RawThinking = RawThinking(min: Option<int>, max: Option<int>, zeroAllowed: Option<bool>,
                                     dynamicAllowed: Option<bool>, levels: seq<string>)

  datatype RawModel = RawModel(id: string, displayName: string, contextLength: int, maxOutputTokens: int,
                               inputModes: seq<string>, outputModes: seq<string>, inputModalities: seq<string>,
                               outputModalities: seq<string>, thinking: Option<RawThinking>)

  datatype Thinking = Thinking(min: int, max: int, zeroAllowed: bool, dynamicAllowed: bool, levels: seq<string>)

  datatype ModelRecord = ModelRecord(publicId: string, upstreamId: string, displayName: string, protocol: Route,
                                     endpoint: string,
                                     contextLimit: int, outputLimit: int, inputModes: seq<string>,
                                     outputModes: seq<string>, thinking: Option<Thinking>)

  datatype Reason =
    | MissingId
    | NoRoute
    | Disabled(route: Route)
    | EscapesHost
    | Collides(publicId: string, upstreamId: string)

  datatype UnsupportedModel = UnsupportedModel(upstreamId: string, reason: Reason)

  datatype Warning =
    | Duplicate(id: string)
    | Overridden(id: string, route: Route, endpoint: string)
    | Collision(publicId: string, upstreamId: string)
    | Shape(text: string)

  // ---- one entry ----

  function PublicId(cfg: Config, id: string): string {
    if cfg.prefixEnabled then cfg.prefix + "/" + id else id
  }

  const PREFIX_ROUTES: seq<(string, Route)> := [
    ("space-bunny", ChatCompletions), ("muse-spark", Responses), ("deepseek", ChatCompletions), ("minimax", Messages),
    ("cat-jam", ChatCompletions), ("longcat", ChatCompletions), ("claude", Messages), ("gemini", Gemini),
    ("grok", Responses), ("gpt", Responses), ("kimi", ChatCompletions), ("qwen", Messages), ("glm", ChatCompletions),
    ("step", ChatCompletions), ("mimo", ChatCompletions), ("hy", ChatCompletions)]

  /** The route of the first family whose prefix the id has. */
  function FamilyRoute(id: string, families: seq<(string, Route)>): Option<Route> {
    if families == [] then None
    else if families[0].0 <= id then Some(families[0].1)
    else FamilyRoute(id, families[1..])
  }

  /** User override, then family, then none. */
  function Resolve(lib: Library, cfg: Config, e: RawModel): Option<(Route, string)> {
    if e.id in cfg.overrides then Some((cfg.overrides[e.id].route, cfg.overrides[e.id].endpoint))
    else
      match FamilyRoute(lib.lower(e.id), PREFIX_ROUTES)
      case Some(route) => Some((route, ""))
      case None => None
  }

  function ResolveWarnings(cfg: Config, e: RawModel): seq<Warning> {
    if e.id in cfg.overrides then [Overridden(e.id, cfg.overrides[e.id].route, cfg.overrides[e.id].endpoint)] else []
  }

  predicate ProtocolEnabled(cfg: Config, r: Route) {
    match r
    case ChatCompletions => cfg.protocols.chatCompletions
    case Messages => cfg.protocols.messages
    case Responses => cfg.protocols.responses
    case Gemini => cfg.protocols.gemini
  }

  function FirstNonEmpty(a: seq<string>, b: seq<string>): seq<string> {
    if a != [] then a else b
  }

  function NormalizeThinking(t: Option<RawThinking>): Option<Thinking> {
    match t
    case None => None
    case Some(r) =>
      Some(Thinking(match r.min case Some(n) => n case None => 0, match r.max case Some(n) => n case None => 0,
                    r.zeroAllowed == Some(true), r.dynamicAllowed == Some(true), r.levels))
  }

  function RecordOf(lib: Library, cfg: Config, e: RawModel, route: Route, endpoint: string): ModelRecord {
    var at := if endpoint != "" then endpoint
              else if route == Gemini then EndpointPath(route) + "/" + lib.escape(e.id) else EndpointPath(route);
    ModelRecord(PublicId(cfg, e.id), e.id, if e.displayName == "" then e.id else e.displayName, route, at,
                e.contextLength, e.maxOutputTokens, FirstNonEmpty(e.inputModes, e.inputModalities),
                FirstNonEmpty(e.outputModes, e.outputModalities), NormalizeThinking(e.thinking))
  }

  /** The record of an entry, or why it is unsupported, collisions aside. */
  function Judge(lib: Library, cfg: Config, e: RawModel): (r: Result<ModelRecord, Reason>)
    ensures r.Ok? ==> r.value.upstreamId == e.id && r.value.publicId == PublicId(cfg, e.id)
    ensures r.Err? ==> !r.error.Collides? && !r.error.MissingId?
  {
    match Resolve(lib, cfg, e)
    case None => Err(NoRoute)
    case Some((route, endpoint)) =>
      if !ProtocolEnabled(cfg, route) then Err(Disabled(route))
      else if endpoint != "" && lib.escapesBase(cfg.baseUrl, endpoint) then Err(EscapesHost)
      else Ok(RecordOf(lib, cfg, e, route, endpoint))
  }

  // ---- a snapshot ----

  datatype Snapshot = Snapshot(models: seq<ModelRecord>, index: map<string, ModelRecord>, unsup: seq<UnsupportedModel>,
                               warns: seq<Warning>, seen: set<string>)

  function Excluded(s: Snapshot, id: string, reason: Reason, warns: seq<Warning>): Snapshot {
    s.(unsup := s.unsup + [UnsupportedModel(id, reason)], warns := s.warns + warns)
  }

  /** Installs a record unless another one holds one of its ids. */
  function Install(s: Snapshot, rec: ModelRecord): Snapshot {
    if rec.publicId in s.index then
      var other := s.index[rec.publicId];
      Excluded(s, rec.upstreamId, Collides(rec.publicId, other.upstreamId), [Collision(rec.publicId, other.upstreamId)])
    else if rec.upstreamId in s.index then
      var other := s.index[rec.upstreamId];
      Excluded(s, rec.upstreamId, Collides(other.publicId, rec.upstreamId), [Collision(other.publicId, rec.upstreamId)])
    else
      s.(models := s.models + [rec], index := s.index[rec.publicId := rec][rec.upstreamId := rec])
  }

  function AddEntry(lib: Library, cfg: Config, s: Snapshot, e: RawModel): Snapshot {
    if e.id == "" then Excluded(s, "", MissingId, [])
    else if e.id in s.seen then s.(warns := s.warns + [Duplicate(e.id)])
    else
      var s1 := s.(seen := s.seen + {e.id}, warns := s.warns + ResolveWarnings(cfg, e));
      match Judge(lib, cfg, e)
      case Err(reason) => Excluded(s1, e.id, reason, [])
      case Ok(rec) => Install(s1, rec)
  }

  function Rebuild(lib: Library, cfg: Config, entries: seq<RawModel>, extra: seq<Warning>): Snapshot {
    if entries == [] then Snapshot([], map[], [], extra, {})
    else AddEntry(lib, cfg, Rebuild(lib, cfg, entries[..|entries| - 1], extra), entries[|entries| - 1])
  }

  /** Warnings are the only thing the extra ones change. */
  lemma {:induction false} ExtraWarningsOnly(lib: Library, cfg: Config, entries: seq<RawModel>, extra: seq<Warning>)
    ensures Rebuild(lib, cfg, entries, extra).(warns := []) == Rebuild(lib, cfg, entries, []).(warns := [])
    decreases |entries|
  {
    if entries != [] { ExtraWarningsOnly(lib, cfg, entries[..|entries| - 1], extra); }
  }

  // ---- the index agrees with a scan ----

  predicate Holds(r: ModelRecord, id: string) {
    r.publicId == id || r.upstreamId == id
  }

  predicate Apart(a: ModelRecord, b: ModelRecord) {
    a.publicId != b.publicId && a.publicId != b.upstreamId && a.upstreamId != b.publicId && a.upstreamId != b.upstreamId
  }

  predicate InIndex(index: map<string, ModelRecord>, r: ModelRecord) {
    r.publicId in index && r.upstreamId in index && index[r.publicId] == r && index[r.upstreamId] == r
  }

  /** A record for every key, a key for every id of every record, and no two
      records hold the same id. */
  ghost predicate Indexed(cfg: Config, s: Snapshot) {
    && (forall id | id in s.index :: s.index[id] in s.models && Holds(s.index[id], id))
    && (forall k | 0 <= k < |s.models| :: InIndex(s.index, s.models[k]))
    && (forall k | 0 <= k < |s.models| :: s.models[k].publicId == PublicId(cfg, s.models[k].upstreamId))
    && (forall k | 0 <= k < |s.models| :: s.models[k].upstreamId in s.seen)
    && (forall j, k | 0 <= j < k < |s.models| :: Apart(s.models[j], s.models[k]))
  }

  lemma {:induction false} InstallKeepsIndex(cfg: Config, s: Snapshot, rec: ModelRecord)
    requires Indexed(cfg, s) && rec.publicId == PublicId(cfg, rec.upstreamId) && rec.upstreamId in s.seen
    ensures Indexed(cfg, Install(s, rec))
  {
    hide PublicId;
    if rec.publicId !in s.index && rec.upstreamId !in s.index {
      var s', n := Install(s, rec), |s.models|;
      forall k | 0 <= k < n
        ensures s'.models[k] == s.models[k] && InIndex(s'.index, s.models[k]) && Apart(s.models[k], rec)
      {
        assert InIndex(s.index, s.models[k]);
      }
      assert s'.models[n] == rec;
      forall id | id in s'.index ensures s'.index[id] in s'.models && Holds(s'.index[id], id) {
        if id != rec.publicId && id != rec.upstreamId {
          var k :| 0 <= k < n && s.models[k] == s.index[id];
          assert s'.models[k] == s.index[id];
        }
      }
    }
  }

  lemma {:induction false} RebuildIsIndexed(lib: Library, cfg: Config, entries: seq<RawModel>, extra: seq<Warning>)
    ensures Indexed(cfg, Rebuild(lib, cfg, entries, extra))
    decreases |entries|
  {
    if entries != [] {
      var e := entries[|entries| - 1];
      var s := Rebuild(lib, cfg, entries[..|entries| - 1], extra);
      RebuildIsIndexed(lib, cfg, entries[..|entries| - 1], extra);
      if e.id != "" && e.id !in s.seen && Judge(lib, cfg, e).Ok? {
        InstallKeepsIndex(cfg, s.(seen := s.seen + {e.id}, warns := s.warns + ResolveWarnings(cfg, e)),
                          Judge(lib, cfg, e).value);
      }
    }
  }

  /** Looking an id up is scanning the models for a record that holds it, of which
      there is at most one. */
  lemma {:induction false} LookupIsScan(lib: Library, cfg: Config, entries: seq<RawModel>, extra: seq<Warning>,
                                        id: string)
    ensures var s := Rebuild(lib, cfg, entries, extra);
            && (id in s.index <==> exists k :: 0 <= k < |s.models| && Holds(s.models[k], id))
            && (forall k | 0 <= k < |s.models| && Holds(s.models[k], id) :: id in s.index && s.index[id] == s.models[k])
            && (forall j, k | 0 <= j < |s.models| && 0 <= k < |s.models| ::
                  Holds(s.models[j], id) && Holds(s.models[k], id) ==> j == k)
  {
    hide Rebuild, PublicId;
    RebuildIsIndexed(lib, cfg, entries, extra);
    var s := Rebuild(lib, cfg, entries, extra);
    if id in s.index {
      var k :| 0 <= k < |s.models| && s.models[k] == s.index[id];
      assert Holds(s.models[k], id);
    }
    forall k | 0 <= k < |s.models| && Holds(s.models[k], id) ensures id in s.index && s.index[id] == s.models[k] {
      assert InIndex(s.index, s.models[k]);
    }
    forall j, k | 0 <= j < k < |s.models| ensures !(Holds(s.models[j], id) && Holds(s.models[k], id)) {
      assert Apart(s.models[j], s.models[k]);
    }
  }

  ghost predicate AllEnabled(cfg: Config, models: seq<ModelRecord>) {
    forall k | 0 <= k < |models| :: ProtocolEnabled(cfg, models[k].protocol)
  }

  /** No routable model uses a protocol the config disables. */
  lemma {:induction false} OnlyEnabledRoutes(lib: Library, cfg: Config, entries: seq<RawModel>, extra: seq<Warning>)
    ensures AllEnabled(cfg, Rebuild(lib, cfg, entries, extra).models)
    decreases |entries|
  {
    hide Judge, ResolveWarnings;
    if entries != [] {
      OnlyEnabledRoutes(lib, cfg, entries[..|entries| - 1], extra);
      JudgedEnabled(lib, cfg, entries[|entries| - 1]);
    }
  }

  lemma JudgedEnabled(lib: Library, cfg: Config, e: RawModel)
    ensures Judge(lib, cfg, e).Ok? ==> ProtocolEnabled(cfg, Judge(lib, cfg, e).value.protocol)
  {
    hide Resolve;
  }

  // ---- every entry is accounted for once ----

  function CountModels(models: seq<ModelRecord>, id: string): nat {
    if models == [] then 0
    else CountModels(models[..|models| - 1], id) + if models[|models| - 1].upstreamId == id then 1 else 0
  }

  function CountUnsupported(unsup: seq<UnsupportedModel>, id: string): nat {
    if unsup == [] then 0
    else CountUnsupported(unsup[..|unsup| - 1], id) + if unsup[|unsup| - 1].upstreamId == id then 1 else 0
  }

  function CountEntries(entries: seq<RawModel>, id: string): nat {
    if entries == [] then 0
    else CountEntries(entries[..|entries| - 1], id) + if entries[|entries| - 1].id == id then 1 else 0
  }

  lemma CountSnoc(models: seq<ModelRecord>, r: ModelRecord, unsup: seq<UnsupportedModel>, u: UnsupportedModel,
                  id: string)
    ensures CountModels(models + [r], id) == CountModels(models, id) + if r.upstreamId == id then 1 else 0
    ensures CountUnsupported(unsup + [u], id) == CountUnsupported(unsup, id) + if u.upstreamId == id then 1 else 0
  {
    assert (models + [r])[..|models|] == models && (unsup + [u])[..|unsup|] == unsup;
  }

  lemma AddEntryCounts(lib: Library, cfg: Config, s: Snapshot, e: RawModel, id: string)
    ensures var s' := AddEntry(lib, cfg, s, e);
            var news := if e.id == id && (id == "" || id !in s.seen) then 1 else 0;
            && CountModels(s'.models, id) + CountUnsupported(s'.unsup, id)
               == CountModels(s.models, id) + CountUnsupported(s.unsup, id) + news
            && (id == "" ==> CountModels(s'.models, id) == CountModels(s.models, id))
            && (id != "" ==> (id in s'.seen <==> id in s.seen || e.id == id))
  {
    hide CountModels, CountUnsupported, Judge;
    var s' := AddEntry(lib, cfg, s, e);
    if |s'.models| > |s.models| {
      CountSnoc(s.models, s'.models[|s.models|], s.unsup, UnsupportedModel("", NoRoute), id);
    }
    if |s'.unsup| > |s.unsup| {
      CountSnoc(s.models, RecordOf(lib, cfg, e, Gemini, ""), s.unsup, s'.unsup[|s.unsup|], id);
    }
  }

  /** Each distinct id of the catalog is one routable model or one unsupported
      one, never both; each entry without an id is one unsupported model. */
  lemma {:induction false} EveryEntryAccountedOnce(lib: Library, cfg: Config, entries: seq<RawModel>,
                                                   extra: seq<Warning>, id: string)
    ensures var s := Rebuild(lib, cfg, entries, extra);
            && (id != "" ==>
                CountModels(s.models, id) + CountUnsupported(s.unsup, id) ==
                  if CountEntries(entries, id) > 0 then 1 else 0)
            && (id == "" ==>
                CountModels(s.models, id) == 0 && CountUnsupported(s.unsup, id) == CountEntries(entries, id))
            && (id != "" ==> (id in s.seen <==> CountEntries(entries, id) > 0))
    decreases |entries|
  {
    if entries != [] {
      hide AddEntry;
      var init := entries[..|entries| - 1];
      EveryEntryAccountedOnce(lib, cfg, init, extra, id);
      AddEntryCounts(lib, cfg, Rebuild(lib, cfg, init, extra), entries[|entries| - 1], id);
    }
  }

  // ---- collisions ----

  /** An id of the one is the other kind of id of the other. */
  predicate CrossRole(a: ModelRecord, b: ModelRecord) {
    a.publicId == b.upstreamId || a.upstreamId == b.publicId
  }

  ghost predicate Clashes(s: Snapshot, rec: ModelRecord) {
    exists k :: 0 <= k < |s.models| && CrossRole(s.models[k], rec)
  }

  /** The record was excluded with a reason that names a routable owner of the id. */
  ghost predicate OwnerNamed(s: Snapshot, s': Snapshot, rec: ModelRecord) {
    exists owner ::
      && owner in s.models && CrossRole(owner, rec)
      && var why := if owner.upstreamId == rec.publicId then Collides(rec.publicId, owner.upstreamId)
                    else Collides(owner.publicId, rec.upstreamId);
         s'.unsup == s.unsup + [UnsupportedModel(rec.upstreamId, why)]
  }

  lemma PublicIdInjective(cfg: Config, a: string, b: string)
    ensures PublicId(cfg, a) == PublicId(cfg, b) ==> a == b
  {
    if cfg.prefixEnabled && PublicId(cfg, a) == PublicId(cfg, b) {
      var n := |cfg.prefix + "/"|;
      assert PublicId(cfg, a)[n..] == a && PublicId(cfg, b)[n..] == b;
    }
  }

  /** The first occurrence of an id becomes routable exactly when it is judged so
      and no earlier routable model clashes with it; a clash is always across
      roles, with the owner named in the reason. */
  lemma {:induction false} FirstInOrderWins(lib: Library, cfg: Config, before: seq<RawModel>, e: RawModel,
                                            extra: seq<Warning>)
    requires e.id != "" && CountEntries(before, e.id) == 0
    ensures var s, s', verdict := Rebuild(lib, cfg, before, extra), Rebuild(lib, cfg, before + [e], extra),
                                  Judge(lib, cfg, e);
            && (verdict.Err? ==> s'.models == s.models && s'.unsup == s.unsup + [UnsupportedModel(e.id, verdict.error)])
            && (verdict.Ok? && !Clashes(s, verdict.value) ==>
                s'.models == s.models + [verdict.value] && s'.unsup == s.unsup)
            && (verdict.Ok? && Clashes(s, verdict.value) ==> s'.models == s.models && OwnerNamed(s, s', verdict.value))
  {
    assert (before + [e])[..|before|] == before;
    EveryEntryAccountedOnce(lib, cfg, before, extra, e.id);
    RebuildIsIndexed(lib, cfg, before, extra);
    var s := Rebuild(lib, cfg, before, extra);
    hide Rebuild, CountEntries, CountModels, CountUnsupported;
    if Judge(lib, cfg, e).Ok? {
      InstallIffNoClash(cfg, s, s.(seen := s.seen + {e.id}, warns := s.warns + ResolveWarnings(cfg, e)),
                        Judge(lib, cfg, e).value);
    }
  }

  lemma InstallIffNoClash(cfg: Config, s: Snapshot, s1: Snapshot, rec: ModelRecord)
    requires Indexed(cfg, s) && rec.publicId == PublicId(cfg, rec.upstreamId) && rec.upstreamId !in s.seen
    requires s1.models == s.models && s1.index == s.index && s1.unsup == s.unsup
    ensures var s' := Install(s1, rec);
            && (!Clashes(s, rec) ==> s'.models == s.models + [rec] && s'.unsup == s.unsup)
            && (Clashes(s, rec) ==> s'.models == s.models && OwnerNamed(s, s', rec))
  {
    ClashIsCrossRole(cfg, s, rec, rec.publicId);
    ClashIsCrossRole(cfg, s, rec, rec.upstreamId);
    if Clashes(s, rec) {
      var k :| 0 <= k < |s.models| && CrossRole(s.models[k], rec);
      assert InIndex(s.index, s.models[k]);
      var owner := if rec.publicId in s.index then s.index[rec.publicId] else s.index[rec.upstreamId];
      assert owner in s.models && CrossRole(owner, rec);
    }
  }

  /** Whoever holds an id of a record not yet seen holds it in its other role. */
  lemma ClashIsCrossRole(cfg: Config, s: Snapshot, rec: ModelRecord, id: string)
    requires Indexed(cfg, s) && rec.publicId == PublicId(cfg, rec.upstreamId) && rec.upstreamId !in s.seen
    requires id == rec.publicId || id == rec.upstreamId
    ensures id in s.index ==>
              && s.index[id] in s.models && CrossRole(s.index[id], rec) && Clashes(s, rec)
              && (id == rec.publicId ==> s.index[id].upstreamId == rec.publicId)
              && (id == rec.upstreamId ==> s.index[id].publicId == rec.upstreamId)
  {
    if id in s.index {
      var k :| 0 <= k < |s.models| && s.models[k] == s.index[id];
      PublicIdInjective(cfg, s.models[k].upstreamId, rec.upstreamId);
    }
  }
}
