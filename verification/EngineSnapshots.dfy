// What a saved snapshot tells about the engine it was taken from.
module EngineSnapshots {
  import opened Records
  import opened Storage
  import opened DataRegistry
  import opened Settlement
  import opened SettlementReports
  import opened MarketListing
  import opened Aggregate
  import opened Engine
  import opened EngineRuns
  import opened SnapshotCodec
  import RoundTrip = SnapshotRoundTrip

  // Equal but for the order of the buildings and the fractions carried from tick to tick.
  ghost predicate SettlementsAlike(a: Settlement, b: Settlement) {
    && a.id == b.id && a.displayName == b.displayName && a.population == b.population
    && a.storage == b.storage && multiset(a.buildings) == multiset(b.buildings)
  }

  // And but for demands for resources nobody registered.
  ghost predicate Alike(a: State, b: State, registry: Registry) {
    && a.day == b.day && a.events == b.events && |a.settlements| == |b.settlements|
    && (forall i :: 0 <= i < |a.settlements| ==> SettlementsAlike(a.settlements[i], b.settlements[i]))
    && (forall r <- registry.resources :: Demanded(a.demands, r) == Demanded(b.demands, r))
  }

  // ---- settlements ----

  lemma AlikeShowsTheSame(report: SettlementReport, a: Settlement, b: Settlement, registry: Registry)
    requires IsReportOf(report, a, registry) && SettlementsAlike(a, b)
    ensures IsReportOf(report, b, registry)
  {
    SameRows(a.buildings, b.buildings, registry);
  }

  lemma {:induction false} PooledAlike(a: seq<Settlement>, b: seq<Settlement>)
    requires |a| == |b| && forall i :: 0 <= i < |a| ==> SettlementsAlike(a[i], b[i])
    ensures Pool(a) == Pool(b)
  {
    if a != [] { PooledAlike(a[..|a| - 1], b[..|b| - 1]); }
  }

  // ---- the market ----

  lemma PriceRowTells(market: MarketReport, stock: Stock, a: Demands, b: Demands, registry: Registry, r: string)
    requires IsMarketReport(market, registry, stock, a) && IsMarketReport(market, registry, stock, b)
    requires r in registry.resources && r in a
    ensures Demanded(a, r) == Demanded(b, r)
  {
    var i :| 0 <= i < |market.prices| && market.prices[i].resourceId == r;
    assert IsRow(market.prices[i], registry, stock, a, stock.Keys + a.Keys);
    assert IsRow(market.prices[i], registry, stock, b, stock.Keys + b.Keys);
  }

  lemma AlikeSellsTheSame(market: MarketReport, stock: Stock, a: Demands, b: Demands, registry: Registry)
    requires IsMarketReport(market, registry, stock, a) && ProperDemands(a) && ProperDemands(b)
    requires forall r <- registry.resources :: Demanded(a, r) == Demanded(b, r)
    ensures IsMarketReport(market, registry, stock, b)
  {
    assert forall r <- registry.resources :: r in a <==> r in b;
    forall i | 0 <= i < |market.prices|
      ensures IsRow(market.prices[i], registry, stock, b, stock.Keys + b.Keys)
    {
      assert IsRow(market.prices[i], registry, stock, a, stock.Keys + a.Keys);
    }
  }

  // ---- whole engines ----

  // A snapshot of one engine is a snapshot of another exactly when the two are alike.
  lemma SnapshotTellsExactly(shot: SimulationSnapshot, a: State, b: State, registry: Registry)
    requires Sound(a, registry) && Sound(b, registry) && IsSnapshot(shot, a, registry)
    ensures IsSnapshot(shot, b, registry) <==> Alike(a, b, registry)
  {
    hide IsReportOf, IsMarketReport, SettlementsAlike, Pool, SettlementsValid;
    if IsSnapshot(shot, b, registry) {
      forall i | 0 <= i < |a.settlements| ensures SettlementsAlike(a.settlements[i], b.settlements[i]) {
        SettlementReportTells(shot.settlements[i], a.settlements[i], b.settlements[i], registry);
      }
      PooledAlike(a.settlements, b.settlements);
      forall r | r in registry.resources ensures Demanded(a.demands, r) == Demanded(b.demands, r) {
        if r in a.demands { PriceRowTells(shot.market, Pool(a.settlements), a.demands, b.demands, registry, r); }
        if r in b.demands { PriceRowTells(shot.market, Pool(a.settlements), b.demands, a.demands, registry, r); }
      }
    }
    if Alike(a, b, registry) {
      forall i | 0 <= i < |b.settlements| ensures IsReportOf(shot.settlements[i], b.settlements[i], registry) {
        AlikeShowsTheSame(shot.settlements[i], a.settlements[i], b.settlements[i], registry);
      }
      PooledAlike(a.settlements, b.settlements);
      AlikeSellsTheSame(shot.market, Pool(a.settlements), a.demands, b.demands, registry);
    }
  }

  lemma SettlementReportTells(report: SettlementReport, a: Settlement, b: Settlement, registry: Registry)
    requires IsReportOf(report, a, registry) && IsReportOf(report, b, registry)
    ensures SettlementsAlike(a, b)
  {
    ReportTells(report, a, b, registry);
  }

  // The printed text of a sound engine's snapshot reads back without complaint, and what is read
  // tells the engine apart from every sound engine that is not alike.
  lemma SavedEngineIsRecognized(shot: SimulationSnapshot, a: State, b: State, registry: Registry)
    requires Sound(a, registry) && Sound(b, registry) && IsSnapshot(shot, a, registry)
    ensures var loaded := Deserialized(Print(SnapshotCodec.Rows(shot)));
      && loaded == LoadResult(shot, 0, 0)
      && (IsSnapshot(loaded.snapshot, b, registry) <==> Alike(a, b, registry))
  {
    ReportedIdsDiffer(shot, a, registry);
    hide Sound, IsSnapshot, Alike;
    RoundTrip.DistinctIdsRoundTrip(shot);
    SnapshotTellsExactly(shot, a, b, registry);
  }

  lemma ReportedIdsDiffer(shot: SimulationSnapshot, e: State, registry: Registry)
    requires Sound(e, registry) && IsSnapshot(shot, e, registry)
    ensures forall j, k :: 0 <= j < k < |shot.settlements| ==> shot.settlements[j].id != shot.settlements[k].id
  {
    forall i | 0 <= i < |shot.settlements| ensures shot.settlements[i].id == e.settlements[i].id {
      assert IsReportOf(shot.settlements[i], e.settlements[i], registry);
    }
  }

  // Saving and loading as the objects do it.
  method SaveThenLoad(engine: SimulationEngine) returns (loaded: LoadResult)
    requires engine.Valid() && Sound(engine.View(), engine.registry)
    ensures loaded.errors == 0 && loaded.warnings == 0
    ensures IsSnapshot(loaded.snapshot, engine.View(), engine.registry)
  {
    hide Sound, IsSnapshot;
    ghost var e := engine.View();
    var shot := engine.Snapshot();
    assert engine.View() == e;
    var text := SerializeSnapshot(shot);
    loaded := DeserializeSnapshot(text);
    SavedEngineIsRecognized(shot, e, e, engine.registry);
    assert engine.View() == e;
  }
}
