// What a settlement shows of itself: its stock and its buildings, listed in order.
module SettlementReports {
  import opened U64
  import opened Sorting
  import opened Records
  import opened Storage
  import opened DataRegistry
  import opened Settlement
  import opened MarketListing

  // A building whose definition is unknown is shown without name and slots.
  function BuildingRow(b: Building, registry: Registry): BuildingReport {
    if b.definitionId in registry.buildings then
      var d := registry.buildings[b.definitionId];
      BuildingReport(b.definitionId, d.displayName, b.workers, d.workerSlots)
    else BuildingReport(b.definitionId, "", b.workers, 0)
  }

  function BuildingRows(bs: seq<Building>, registry: Registry): seq<BuildingReport> {
    if bs == [] then [] else BuildingRows(bs[..|bs| - 1], registry) + [BuildingRow(bs[|bs| - 1], registry)]
  }

  const RESOURCE: ResourceAmount -> string := (x: ResourceAmount) => x.resourceId
  const DEFINITION: BuildingReport -> string := (x: BuildingReport) => x.definitionId

  predicate ByResource(a: ResourceAmount, b: ResourceAmount) { StrLe(a.resourceId, b.resourceId) }
  predicate ByDefinition(a: BuildingReport, b: BuildingReport) { StrLe(a.definitionId, b.definitionId) }

  // Every entry of a stock, once.
  ghost predicate Inventories(rows: seq<ResourceAmount>, stock: Stock) {
    && DistinctKeys(RESOURCE, rows)
    && forall x: ResourceAmount :: x in rows <==> x.resourceId in stock && stock[x.resourceId] == x.amount
  }

  ghost predicate IsReportOf(report: SettlementReport, s: Settlement, registry: Registry) {
    && report.id == s.id && report.displayName == s.displayName && report.population == s.population
    && Inventories(report.storage, s.storage) && SortedBy(ByResource, report.storage)
    && report.totalStoredResources == Min(Total(s.storage), U64_MAX)
    && multiset(report.buildings) == multiset(BuildingRows(s.buildings, registry))
    && SortedBy(ByDefinition, report.buildings)
  }

  // ---- making a report ----

  lemma NoEntries()
    ensures Inventories([], map[]) && Total(map[]) == 0
  {
  }

  lemma OneMoreEntry(rows: seq<ResourceAmount>, seen: Stock, r: string, n: u64)
    requires Inventories(rows, seen) && r !in seen
    ensures Inventories(rows + [ResourceAmount(r, n)], seen[r := n])
    ensures Total(seen[r := n]) == Total(seen) + n
  {
    TotalUpdated(seen, r, n);
    var more := rows + [ResourceAmount(r, n)];
    forall i, j | 0 <= i < j < |more| ensures RESOURCE(more[i]) != RESOURCE(more[j]) {
      if j == |rows| { assert rows[i] in rows; }
    }
  }

  lemma InventoryPermuted(a: seq<ResourceAmount>, b: seq<ResourceAmount>, stock: Stock)
    requires Inventories(a, stock) && multiset(a) == multiset(b)
    ensures Inventories(b, stock)
  {
    PermutedKeysDistinct(RESOURCE, a, b);
    SameMembers(a, b);
  }

  method ListStock(stock: Stock) returns (rows: seq<ResourceAmount>, total: u64)
    ensures Inventories(rows, stock) && SortedBy(ByResource, rows)
    ensures total == Min(Total(stock), U64_MAX)
  {
    hide Inventories, Total, DistinctKeys, StrLe;
    var order := VisitOrder(stock.Keys);
    var listed: seq<ResourceAmount> := [];
    total := 0;
    NoEntries();
    ghost var seen: Stock := map[];
    assert Elements(order[..0]) == {};
    for i := 0 to |order|
      invariant Inventories(listed, seen) && total == Min(Total(seen), U64_MAX)
      invariant seen.Keys == Elements(order[..i]) && forall r <- seen :: r in stock && seen[r] == stock[r]
    {
      var r := order[i];
      assert r in Elements(order);
      assert order[..i + 1] == order[..i] + [r];
      ElementsSnoc(order[..i], r);
      assert r !in Elements(order[..i]);
      OneMoreEntry(listed, seen, r, stock[r]);
      listed, total := listed + [ResourceAmount(r, stock[r])], SatAdd(total, stock[r]);
      seen := seen[r := stock[r]];
    }
    assert order[..|order|] == order;
    assert seen == stock;
    KeyedOrderIsTotal(RESOURCE, ByResource);
    rows := Sort(ByResource, listed);
    InventoryPermuted(listed, rows, stock);
  }

  method ListBuildings(bs: seq<Building>, registry: Registry) returns (rows: seq<BuildingReport>)
    ensures multiset(rows) == multiset(BuildingRows(bs, registry)) && SortedBy(ByDefinition, rows)
  {
    var listed: seq<BuildingReport> := [];
    for i := 0 to |bs|
      invariant listed == BuildingRows(bs[..i], registry)
    {
      assert bs[..i + 1][..i] == bs[..i];
      listed := listed + [BuildingRow(bs[i], registry)];
    }
    assert bs[..|bs|] == bs;
    KeyedOrderIsTotal(DEFINITION, ByDefinition);
    rows := Sort(ByDefinition, listed);
  }

  method MakeSettlementReport(s: Settlement, registry: Registry) returns (report: SettlementReport)
    ensures IsReportOf(report, s, registry)
  {
    hide Inventories;
    var storage, total := ListStock(s.storage);
    var buildings := ListBuildings(s.buildings, registry);
    report := SettlementReport(s.id, s.displayName, s.population, storage, buildings, total);
  }

  // ---- what a report gives away ----

  lemma {:induction false} RowsCount(bs: seq<Building>, b: Building, registry: Registry)
    ensures multiset(BuildingRows(bs, registry))[BuildingRow(b, registry)] == multiset(bs)[b]
  {
    if bs != [] {
      var n := |bs| - 1;
      RowsCount(bs[..n], b, registry);
      assert bs == bs[..n] + [bs[n]];
    }
  }

  lemma {:induction false} RowsComeFromBuildings(bs: seq<Building>, registry: Registry)
    ensures forall x :: x in BuildingRows(bs, registry) ==>
      x == BuildingRow(Building(x.definitionId, x.assignedWorkers), registry)
  {
    if bs != [] { RowsComeFromBuildings(bs[..|bs| - 1], registry); }
  }

  // The order of the buildings does not matter to their rows.
  lemma SameRows(a: seq<Building>, b: seq<Building>, registry: Registry)
    requires multiset(a) == multiset(b)
    ensures multiset(BuildingRows(a, registry)) == multiset(BuildingRows(b, registry))
  {
    RowsComeFromBuildings(a, registry);
    RowsComeFromBuildings(b, registry);
    forall x: BuildingReport ensures multiset(BuildingRows(a, registry))[x] == multiset(BuildingRows(b, registry))[x] {
      var building := Building(x.definitionId, x.assignedWorkers);
      RowsCount(a, building, registry);
      RowsCount(b, building, registry);
    }
  }

  // Two settlements with the same report have the same stock, and the same buildings in some order.
  lemma ReportTells(report: SettlementReport, a: Settlement, b: Settlement, registry: Registry)
    requires IsReportOf(report, a, registry) && IsReportOf(report, b, registry)
    ensures a.id == b.id && a.displayName == b.displayName && a.population == b.population
    ensures a.storage == b.storage && multiset(a.buildings) == multiset(b.buildings)
  {
    forall r | r in a.storage ensures r in b.storage && a.storage[r] == b.storage[r] {
      assert ResourceAmount(r, a.storage[r]) in report.storage;
    }
    forall r | r in b.storage ensures r in a.storage {
      assert ResourceAmount(r, b.storage[r]) in report.storage;
    }
    forall x: Building ensures multiset(a.buildings)[x] == multiset(b.buildings)[x] {
      RowsCount(a.buildings, x, registry);
      RowsCount(b.buildings, x, registry);
    }
  }

  // Every building row is that of some building, as often as there are such buildings, with the name and
  // the slots of its definition, or without any if that is unknown; both lists ascend.
  lemma ReportShows(report: SettlementReport, s: Settlement, registry: Registry, x: BuildingReport)
    requires IsReportOf(report, s, registry)
    ensures x in report.buildings ==>
      && x.displayName == (if x.definitionId in registry.buildings then registry.buildings[x.definitionId].displayName
                           else "")
      && x.workerSlots == (if x.definitionId in registry.buildings then registry.buildings[x.definitionId].workerSlots
                           else 0)
      && multiset(report.buildings)[x] == multiset(s.buildings)[Building(x.definitionId, x.assignedWorkers)]
    ensures forall i, j :: 0 <= i < j < |report.storage| ==>
              StrLe(report.storage[i].resourceId, report.storage[j].resourceId)
    ensures forall i, j :: 0 <= i < j < |report.buildings| ==>
              StrLe(report.buildings[i].definitionId, report.buildings[j].definitionId)
  {
    if x in report.buildings {
      SameMembers(report.buildings, BuildingRows(s.buildings, registry));
      RowsComeFromBuildings(s.buildings, registry);
      RowsCount(s.buildings, Building(x.definitionId, x.assignedWorkers), registry);
    }
    hide Inventories, StrLe;
  }
}
