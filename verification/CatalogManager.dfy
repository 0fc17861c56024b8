/** The manager that owns a catalog snapshot: it swaps a new one in on a
    successful refresh and keeps or clears the old one on a failed one. */
module CatalogManager {
  import opened Basics
  import opened Catalog

  /** The decoded body of a catalog response. */
  datatype Body = Invalid | WithoutData | Entries(entries: seq<RawModel>)

  /** What the host brought for one refresh. */
  datatype Fetch = NoClient | NetworkError | Response(length: int, status: int, body: Body)

  const BUDGET_FLOOR := 16777216
  const SHAPE_DRIFT := Shape("upstream catalog response missing \"data\" field")

  /** The entries and diagnostics of a usable response. */
  function Usable(fetch: Fetch, maxResponseBytes: int): Option<(seq<RawModel>, seq<Warning>)> {
    match fetch
    case Response(length, status, body) =>
      if length > (if maxResponseBytes > BUDGET_FLOOR then maxResponseBytes else BUDGET_FLOOR) || status != 200
      then None
      else (match body
            case Invalid => None
            case WithoutData => Some(([], [SHAPE_DRIFT]))
            case Entries(entries) => Some((entries, [])))
    case _ => None
  }

  class Manager {
    const lib: Library
    const cfg: Config
    const maxResponseBytes: int
    /** The upstream entries behind the snapshot. */
    var raw: seq<RawModel>
    var models: seq<ModelRecord>
    var index: map<string, ModelRecord>
    var unsup: seq<UnsupportedModel>
    var warns: seq<Warning>
    /** The diagnostics the snapshot was built with beside the entries' own. */
    ghost var extra: seq<Warning>

    /** What is served is the rebuild of the raw entries under the own config. */
    ghost predicate Valid()
      reads this
    {
      var s := Rebuild(lib, cfg, raw, extra);
      models == s.models && index == s.index && unsup == s.unsup && warns == s.warns
    }

    constructor (lib: Library, cfg: Config, maxResponseBytes: int)
      ensures Valid() && raw == [] && extra == []
      ensures this.lib == lib && this.cfg == cfg && this.maxResponseBytes == maxResponseBytes
    {
      this.lib, this.cfg, this.maxResponseBytes := lib, cfg, maxResponseBytes;
      raw, models, index, unsup, warns, extra := [], [], map[], [], [], [];
    }

    method Swap(entries: seq<RawModel>, extraWarns: seq<Warning>)
      modifies this
      ensures Valid() && raw == entries && extra == extraWarns
    {
      hide Judge, ResolveWarnings;
      var newModels: seq<ModelRecord>, newIndex: map<string, ModelRecord> := [], map[];
      var newUnsup: seq<UnsupportedModel>, newWarns := [], extraWarns;
      var seen: set<string> := {};
      for k := 0 to |entries|
        invariant Snapshot(newModels, newIndex, newUnsup, newWarns, seen) == Rebuild(lib, cfg, entries[..k], extraWarns)
      {
        assert entries[..k + 1][..k] == entries[..k];
        var e := entries[k];
        if e.id == "" {
          newUnsup := newUnsup + [UnsupportedModel("", MissingId)];
          assert newWarns + [] == newWarns;
          continue;
        }
        if e.id in seen {
          newWarns := newWarns + [Duplicate(e.id)];
          continue;
        }
        seen := seen + {e.id};
        newWarns := newWarns + ResolveWarnings(cfg, e);
        match Judge(lib, cfg, e)
        case Err(reason) =>
          newUnsup := newUnsup + [UnsupportedModel(e.id, reason)];
          assert newWarns + [] == newWarns;
        case Ok(rec) =>
          // The first record in catalog order keeps an id that two claim.
          if rec.publicId in newIndex {
            var other := newIndex[rec.publicId];
            newWarns := newWarns + [Collision(rec.publicId, other.upstreamId)];
            newUnsup := newUnsup + [UnsupportedModel(e.id, Collides(rec.publicId, other.upstreamId))];
          } else if rec.upstreamId in newIndex {
            var other := newIndex[rec.upstreamId];
            newWarns := newWarns + [Collision(other.publicId, rec.upstreamId)];
            newUnsup := newUnsup + [UnsupportedModel(e.id, Collides(other.publicId, rec.upstreamId))];
          } else {
            newModels := newModels + [rec];
            newIndex := newIndex[rec.publicId := rec];
            newIndex := newIndex[rec.upstreamId := rec];
          }
      }
      assert entries[..|entries|] == entries;
      raw, models, index, unsup, warns := entries, newModels, newIndex, newUnsup, newWarns;
      extra := extraWarns;
    }

    /** The stale policy: keep serving, or clear everything. */
    method Fail()
      requires Valid()
      modifies this
      ensures Valid()
      ensures if cfg.staleWhileUnavailable then raw == old(raw) && extra == old(extra) else raw == [] && extra == []
    {
      if !cfg.staleWhileUnavailable {
        raw, models, index, unsup, warns := [], [], map[], [], [];
        extra := [];
      }
    }

    method Refresh(fetch: Fetch) returns (ok: bool)
      requires Valid()
      modifies this
      ensures Valid() && (ok <==> Usable(fetch, maxResponseBytes).Some?)
      ensures ok ==> (raw, extra) == Usable(fetch, maxResponseBytes).value
      ensures !ok ==>
                if cfg.staleWhileUnavailable then raw == old(raw) && extra == old(extra) else raw == [] && extra == []
    {
      hide Rebuild;
      match fetch
      case NoClient => Fail(); return false;
      case NetworkError => Fail(); return false;
      case Response(length, status, body) =>
        var limit := if maxResponseBytes > BUDGET_FLOOR then maxResponseBytes else BUDGET_FLOOR;
        if length > limit { Fail(); return false; }
        if status != 200 { Fail(); return false; }
        match body
        case Invalid => Fail(); return false;
        case WithoutData => Swap([], [SHAPE_DRIFT]); return true;
        case Entries(entries) => Swap(entries, []); return true;
    }

    /** Rebuilds the other manager's entries under the own config. */
    method SeedFrom(prev: Manager)
      modifies this
      ensures Valid() && raw == old(prev.raw) && extra == []
    {
      Swap(prev.raw, []);
    }

    /** Resolves a public or upstream id: what a scan of the models would find. */
    method Lookup(id: string) returns (rec: Option<ModelRecord>)
      requires Valid()
      ensures rec.Some? <==> exists k :: 0 <= k < |models| && Holds(models[k], id)
      ensures rec.Some? ==> rec.value in models && Holds(rec.value, id)
    {
      LookupIsScan(lib, cfg, raw, extra, id);
      RebuildIsIndexed(lib, cfg, raw, extra);
      hide Rebuild;
      return if id in index then Some(index[id]) else None;
    }
  }
}
