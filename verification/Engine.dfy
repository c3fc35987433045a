// The simulation engine: commands, days, and saving and restoring its state.
module Engine {
  import opened U64
  import opened Lookup
  import opened Records
  import opened Storage
  import opened DataRegistry
  import opened Settlement
  import opened MarketListing
  import opened Aggregate
  import opened SettlementReports

  // An engine as a value; the registry it was built with never changes.
  datatype State = State(day: u64, settlements: seq<Settlement>, events: seq<SimulationEvent>, demands: Demands)

  const FRESH := State(0, [], [], map[])

  function Find(ss: seq<Settlement>, id: string): (i: nat)
    ensures i <= |ss|
    ensures i < |ss| ==> ss[i].id == id
    ensures forall j :: 0 <= j < i ==> ss[j].id != id
  {
    First(ss, (s: Settlement) => s.id == id)
  }

  predicate Has(ss: seq<Settlement>, id: string) { Find(ss, id) < |ss| }

  // ---- commands ----

  datatype Command =
    | CreateSettlement(definition: string)
    | AddBuilding(id: string, building: Building)
    | AddResource(id: string, resource: string, amount: u64)
    | RemoveResource(id: string, resource: string, amount: u64)
    | TransferResource(id: string, target: string, resource: string, amount: u64)

  predicate Accepts(ss: seq<Settlement>, registry: Registry, c: Command) {
    match c
    case CreateSettlement(id) => id != [] && id in registry.settlements && !Has(ss, id)
    case AddBuilding(id, b) =>
      && id != [] && Has(ss, id)
      && b.definitionId in registry.buildings && b.workers <= registry.buildings[b.definitionId].workerSlots
    case AddResource(id, r, n) =>
      id != [] && r in registry.resources && Has(ss, id) && CanAdd(ss[Find(ss, id)].storage, r, n)
    case RemoveResource(id, r, n) =>
      id != [] && r != [] && r in registry.resources && Has(ss, id) && CanRemove(ss[Find(ss, id)].storage, r, n)
    case TransferResource(id, target, r, n) =>
      && id != [] && target != [] && id != target && r in registry.resources && Has(ss, id) && Has(ss, target)
      && CanRemove(ss[Find(ss, id)].storage, r, n) && CanAdd(ss[Find(ss, target)].storage, r, n)
  }

  function WithStorage(ss: seq<Settlement>, i: nat, stock: Stock): seq<Settlement>
    requires i < |ss|
  {
    ss[i := ss[i].(storage := stock)]
  }

  function Founded(id: string, d: SettlementDefinition): Settlement {
    Settlement(id, d.displayName, d.population, map[], [], [])
  }

  // A refused command leaves every settlement as it was.
  function Execute(ss: seq<Settlement>, registry: Registry, c: Command): seq<Settlement> {
    if !Accepts(ss, registry, c) then ss
    else
      match c
      case CreateSettlement(id) => ss + [Founded(id, registry.settlements[id])]
      case AddBuilding(id, b) =>
        var i := Find(ss, id);
        ss[i := ss[i].(buildings := ss[i].buildings + [b])]
      case AddResource(id, r, n) =>
        var i := Find(ss, id);
        WithStorage(ss, i, Added(ss[i].storage, r, n))
      case RemoveResource(id, r, n) =>
        var i := Find(ss, id);
        WithStorage(ss, i, Removed(ss[i].storage, r, n))
      case TransferResource(id, target, r, n) =>
        var i, j := Find(ss, id), Find(ss, target);
        WithStorage(WithStorage(ss, i, Removed(ss[i].storage, r, n)), j, Added(ss[j].storage, r, n))
  }

  const CREATE_SETTLEMENT := "create_settlement"
  const ADD_BUILDING := "add_building_to_settlement"
  const ADD_RESOURCE := "add_resource_to_settlement"
  const REMOVE_RESOURCE := "remove_resource_from_settlement"
  const TRANSFER_RESOURCE := "transfer_resource_between_settlements"

  function Name(c: Command): string {
    match c
    case CreateSettlement(_) => CREATE_SETTLEMENT
    case AddBuilding(_, _) => ADD_BUILDING
    case AddResource(_, _, _) => ADD_RESOURCE
    case RemoveResource(_, _, _) => REMOVE_RESOURCE
    case TransferResource(_, _, _, _) => TRANSFER_RESOURCE
  }

  function CommandEvent(day: u64, name: string, ok: bool): SimulationEvent {
    SimulationEvent(day, if ok then "simulation.command.succeeded" else "simulation.command.failed",
                    name + if ok then " succeeded" else " failed")
  }

  // Accepted or not, a command is logged.
  function Commanded(e: State, registry: Registry, c: Command): State {
    e.(settlements := Execute(e.settlements, registry, c),
       events := e.events + [CommandEvent(e.day, Name(c), Accepts(e.settlements, registry, c))])
  }

  predicate TransferNamed(ss: seq<Settlement>, registry: Registry, id: string, target: string, r: string, n: u64) {
    && id != [] && target != [] && id != target && r != [] && n > 0 && r in registry.resources
    && Has(ss, id) && Has(ss, target)
  }

  // A transfer between existing settlements is decided by the two storages alone.
  lemma TransferRefused(ss: seq<Settlement>, registry: Registry, id: string, target: string, r: string, n: u64)
    requires !TransferNamed(ss, registry, id, target, r, n)
    ensures !Accepts(ss, registry, Command.TransferResource(id, target, r, n))
    ensures Execute(ss, registry, Command.TransferResource(id, target, r, n)) == ss
  {
  }

  lemma TransferDecided(ss: seq<Settlement>, registry: Registry, id: string, target: string, r: string, n: u64,
                        i: nat, j: nat)
    requires TransferNamed(ss, registry, id, target, r, n) && i == Find(ss, id) && j == Find(ss, target)
    ensures i < |ss| && j < |ss|
    ensures Accepts(ss, registry, Command.TransferResource(id, target, r, n))
            <==> CanRemove(ss[i].storage, r, n) && CanAdd(ss[j].storage, r, n)
    ensures Execute(ss, registry, Command.TransferResource(id, target, r, n)) ==
      if CanRemove(ss[i].storage, r, n) && CanAdd(ss[j].storage, r, n) then
        WithStorage(WithStorage(ss, i, Removed(ss[i].storage, r, n)), j, Added(ss[j].storage, r, n))
      else ss
  {
  }

  // ---- days ----

  function DayLater(s: Settlement, registry: Registry): Settlement {
    AfterTick(s, TickSettlement(s, registry, TICKS_PER_DAY))
  }

  function Advanced(ss: seq<Settlement>, registry: Registry): (r: seq<Settlement>)
    ensures |r| == |ss| && forall i :: 0 <= i < |ss| ==> r[i] == DayLater(ss[i], registry)
  {
    if ss == [] then [] else Advanced(ss[..|ss| - 1], registry) + [DayLater(ss[|ss| - 1], registry)]
  }

  function AdvancedEvent(day: u64, id: string): SimulationEvent {
    SimulationEvent(day, "simulation.settlement.advanced", "advanced settlement: " + id)
  }

  function AdvancedEvents(day: u64, ss: seq<Settlement>): (r: seq<SimulationEvent>)
    ensures |r| == |ss| && forall i :: 0 <= i < |ss| ==> r[i] == AdvancedEvent(day, ss[i].id)
  {
    if ss == [] then [] else AdvancedEvents(day, ss[..|ss| - 1]) + [AdvancedEvent(day, ss[|ss| - 1].id)]
  }

  function DayEvents(day: u64, ss: seq<Settlement>): seq<SimulationEvent> {
    [SimulationEvent(day, "simulation.day.started", "simulation day started")]
    + AdvancedEvents(day, ss)
    + [SimulationEvent(day, "simulation.day.completed", "simulation day completed")]
  }

  // The day counter wraps around.
  function NextDay(e: State, registry: Registry): State {
    var day := WrapAdd(e.day, 1);
    State(day, Advanced(e.settlements, registry), e.events + DayEvents(day, e.settlements), e.demands)
  }

  function DaysLater(e: State, registry: Registry, n: nat): State {
    if n == 0 then e else NextDay(DaysLater(e, registry, n - 1), registry)
  }

  lemma OneMoreDay(e: State, registry: Registry, n: nat)
    ensures DaysLater(e, registry, n + 1) == NextDay(DaysLater(e, registry, n), registry)
  {
  }

  lemma NoDays(e: State, registry: Registry)
    ensures DaysLater(e, registry, 0) == e && AllEvents([]) == []
  {
  }

  // Of the day's warnings, only how many there are.
  datatype DayReport = DayReport(
    day: u64, ticks: seq<TickReport>, settlements: seq<SettlementReport>, market: MarketReport,
    events: seq<SimulationEvent>, warnings: nat)

  function Warnings(ticks: seq<TickReport>): nat {
    if ticks == [] then 0 else Warnings(ticks[..|ticks| - 1]) + ticks[|ticks| - 1].warnings
  }

  ghost predicate IsTickOf(t: TickReport, s: Settlement, registry: Registry) {
    t == Report(s, TICKS_PER_DAY, TickSettlement(s, registry, TICKS_PER_DAY))
  }

  ghost predicate TicksOf(ticks: seq<TickReport>, ss: seq<Settlement>, registry: Registry) {
    |ticks| == |ss| && forall i :: 0 <= i < |ss| ==> IsTickOf(ticks[i], ss[i], registry)
  }

  ghost predicate ReportsOf(reports: seq<SettlementReport>, ss: seq<Settlement>, registry: Registry) {
    |reports| == |ss| && forall i :: 0 <= i < |ss| ==> IsReportOf(reports[i], ss[i], registry)
  }

  // The market as it is priced on the pooled stock of all settlements.
  ghost predicate IsMarketOf(market: MarketReport, ss: seq<Settlement>, demands: Demands, registry: Registry) {
    IsMarketReport(market, registry, Pool(ss), demands)
  }

  // The ticks are those of the day before; settlements and market are shown as they are after it.
  ghost predicate IsDayReport(report: DayReport, e: State, registry: Registry) {
    var next := NextDay(e, registry);
    && report.day == next.day && report.events == DayEvents(next.day, e.settlements)
    && TicksOf(report.ticks, e.settlements, registry) && report.warnings == Warnings(report.ticks)
    && ReportsOf(report.settlements, next.settlements, registry)
    && IsMarketOf(report.market, next.settlements, e.demands, registry)
  }

  ghost predicate IsSnapshot(shot: SimulationSnapshot, e: State, registry: Registry) {
    && shot.day == e.day && shot.events == e.events
    && ReportsOf(shot.settlements, e.settlements, registry)
    && IsMarketOf(shot.market, e.settlements, e.demands, registry)
  }

  function AllEvents(reports: seq<DayReport>): seq<SimulationEvent> {
    if reports == [] then [] else AllEvents(reports[..|reports| - 1]) + reports[|reports| - 1].events
  }

  lemma EventsSnoc(reports: seq<DayReport>, report: DayReport)
    ensures AllEvents(reports + [report]) == AllEvents(reports) + report.events
  {
    assert (reports + [report])[..|reports|] == reports;
  }

  // ---- saved states ----

  datatype DemandRow = DemandRow(resourceId: string, demand: u64)

  datatype Saved = Saved(day: u64, settlements: seq<Settlement>, events: seq<SimulationEvent>, demands: seq<DemandRow>)

  predicate Stocked(stock: Stock, registry: Registry) {
    forall r <- stock :: r != [] && stock[r] > 0 && r in registry.resources
  }

  predicate SettlementsValid(ss: seq<Settlement>, registry: Registry) {
    && (forall i :: 0 <= i < |ss| ==> ss[i].id != [] && Stocked(ss[i].storage, registry))
    && (forall i, j :: 0 <= i < j < |ss| ==> ss[i].id != ss[j].id)
  }

  predicate DemandsValid(ds: seq<DemandRow>, registry: Registry) {
    && (forall i :: 0 <= i < |ds| ==> ds[i].resourceId != [] && ds[i].resourceId in registry.resources)
    && (forall i, j :: 0 <= i < j < |ds| ==> ds[i].resourceId != ds[j].resourceId)
  }

  predicate Acceptable(saved: Saved, registry: Registry) {
    SettlementsValid(saved.settlements, registry) && DemandsValid(saved.demands, registry)
  }

  function DemandTable(ds: seq<DemandRow>): Demands {
    if ds == [] then map[]
    else
      var n := |ds| - 1;
      WithDemand(DemandTable(ds[..n]), ds[n].resourceId, ds[n].demand)
  }

  function Restored(e: State, saved: Saved, registry: Registry): State {
    if Acceptable(saved, registry) then State(saved.day, saved.settlements, saved.events, DemandTable(saved.demands))
    else e
  }

  // The demand table written out in some order.
  ghost predicate Lists(ds: seq<DemandRow>, m: Demands) {
    && (forall i :: 0 <= i < |ds| ==> ds[i].resourceId in m && m[ds[i].resourceId] == ds[i].demand)
    && (forall i, j :: 0 <= i < j < |ds| ==> ds[i].resourceId != ds[j].resourceId)
    && (forall r <- m :: exists i :: 0 <= i < |ds| && ds[i].resourceId == r)
  }

  ghost predicate IsExport(saved: Saved, e: State) {
    && saved.day == e.day && saved.settlements == e.settlements && saved.events == e.events
    && Lists(saved.demands, e.demands)
  }

  // ---- the engine object ----

  ghost function Stores(ss: seq<SettlementState>): set<ResourceStorage> {
    set s <- ss :: s.storage
  }

  ghost function Views(ss: seq<SettlementState>): (vs: seq<Settlement>)
    reads ss, Stores(ss)
    ensures |vs| == |ss| && forall i :: 0 <= i < |ss| ==> vs[i] == ss[i].View()
  {
    seq(|ss|, i requires 0 <= i < |ss| reads ss, Stores(ss) => ss[i].View())
  }

  // Settlements are separate objects that share no storage.
  ghost predicate Apart(ss: seq<SettlementState>) {
    forall i, j :: 0 <= i < j < |ss| ==> ss[i] != ss[j] && ss[i].storage != ss[j].storage
  }

  // Changing one settlement changes one view.
  lemma OneViewChanged(ss: seq<SettlementState>, before: seq<Settlement>, i: nat)
    requires i < |ss| == |before|
    requires forall k :: 0 <= k < |ss| && k != i ==> ss[k].View() == before[k]
    ensures Views(ss) == before[i := ss[i].View()]
  {
  }

  class SimulationEngine {
    const registry: Registry
    const market: MarketState
    var settlements: seq<SettlementState>
    var events: seq<SimulationEvent>
    var currentDay: u64

    constructor (registry: Registry)
      ensures Valid() && View() == FRESH && this.registry == registry && fresh(market)
    {
      this.registry := registry;
      market := new MarketState();
      settlements, events, currentDay := [], [], 0;
    }

    ghost predicate Valid()
      reads this
    {
      Apart(settlements)
    }

    ghost function View(): State
      reads this, market, settlements, Stores(settlements)
    {
      State(currentDay, Views(settlements), events, market.demands)
    }

    method FindSettlement(id: string) returns (i: nat)
      ensures i == Find(Views(settlements), id)
    {
      i := 0;
      while i < |settlements| && settlements[i].id != id
        invariant i <= |settlements|
        invariant forall j :: 0 <= j < i ==> settlements[j].id != id
      {
        i := i + 1;
      }
    }

    // The settlement handed in becomes the engine's own.
    method AddSettlement(s: SettlementState) returns (errors: nat)
      requires Valid()
      requires forall i :: 0 <= i < |settlements| ==> settlements[i] != s && settlements[i].storage != s.storage
      modifies this`settlements
      ensures Valid()
      ensures errors <= 1
      ensures errors == 0 <==> s.id != [] && !Has(old(Views(settlements)), s.id)
      ensures settlements == if errors == 0 then old(settlements) + [s] else old(settlements)
    {
      if s.id == [] { return 1; }
      var i := FindSettlement(s.id);
      if i < |settlements| { return 1; }
      settlements := settlements + [s];
      return 0;
    }

    method CreateSettlement(id: string) returns (errors: nat)
      requires Valid()
      modifies this`settlements
      ensures Valid() && old(settlements) <= settlements
      ensures forall i :: |old(settlements)| <= i < |settlements| ==>
        fresh(settlements[i]) && fresh(settlements[i].storage)
      ensures errors <= 1
      ensures errors == 0 <==> Accepts(old(Views(settlements)), registry, Command.CreateSettlement(id))
      ensures Views(settlements) == Execute(old(Views(settlements)), registry, Command.CreateSettlement(id))
    {
      if id == [] { return 1; }
      if id !in registry.settlements { return 1; }
      var d := registry.settlements[id];
      var s := new SettlementState(id, d.displayName, d.population);
      forall i | 0 <= i < |settlements| ensures settlements[i].storage != s.storage {
        assert settlements[i].storage in old(Stores(settlements));
      }
      errors := AddSettlement(s);
    }

    method AddBuilding(id: string, b: Building) returns (errors: nat)
      requires Valid()
      modifies settlements, Stores(settlements)
      ensures Valid()
      ensures errors <= 1
      ensures errors == 0 <==> Accepts(old(Views(settlements)), registry, Command.AddBuilding(id, b))
      ensures Views(settlements) == Execute(old(Views(settlements)), registry, Command.AddBuilding(id, b))
    {
      if id == [] { return 1; }
      var i := FindSettlement(id);
      if i == |settlements| { return 1; }
      ghost var before := Views(settlements);
      errors := settlements[i].AddBuilding(registry, b);
      OneViewChanged(settlements, before, i);
    }

    method AddResource(id: string, r: string, n: u64) returns (errors: nat)
      requires Valid()
      modifies settlements, Stores(settlements)
      ensures Valid()
      ensures errors <= 1
      ensures errors == 0 <==> Accepts(old(Views(settlements)), registry, Command.AddResource(id, r, n))
      ensures Views(settlements) == Execute(old(Views(settlements)), registry, Command.AddResource(id, r, n))
    {
      if id == [] { return 1; }
      if r == [] { return 1; }
      if n == 0 { return 1; }
      if r !in registry.resources { return 1; }
      var i := FindSettlement(id);
      if i == |settlements| { return 1; }
      hide CanAdd, Added;
      ghost var before := Views(settlements);
      errors := settlements[i].storage.Add(r, n);
      OneViewChanged(settlements, before, i);
    }

    method RemoveResource(id: string, r: string, n: u64) returns (errors: nat)
      requires Valid()
      modifies settlements, Stores(settlements)
      ensures Valid()
      ensures errors <= 1
      ensures errors == 0 <==> Accepts(old(Views(settlements)), registry, Command.RemoveResource(id, r, n))
      ensures Views(settlements) == Execute(old(Views(settlements)), registry, Command.RemoveResource(id, r, n))
    {
      if id == [] { return 1; }
      if r == [] { return 1; }
      if n == 0 { return 1; }
      if r !in registry.resources { return 1; }
      var i := FindSettlement(id);
      if i == |settlements| { return 1; }
      hide CanRemove, Removed;
      ghost var before := Views(settlements);
      var ok := settlements[i].storage.TryRemove(r, n);
      OneViewChanged(settlements, before, i);
      errors := if ok then 0 else 1;
    }

    method TransferResource(id: string, target: string, r: string, n: u64) returns (errors: nat)
      requires Valid()
      modifies settlements, Stores(settlements)
      ensures Valid()
      ensures errors <= 1
      ensures errors == 0 <==> Accepts(old(Views(settlements)), registry, Command.TransferResource(id, target, r, n))
      ensures Views(settlements) == Execute(old(Views(settlements)), registry,
                                            Command.TransferResource(id, target, r, n))
    {
      hide Accepts, Execute, TransferNamed, CanRemove, CanAdd, Removed, Added, WithStorage, Has;
      ghost var before := Views(settlements);
      var named, i, j := TransferParties(id, target, r, n);
      if !named {
        TransferRefused(before, registry, id, target, r, n);
        return 1;
      }
      TransferDecided(before, registry, id, target, r, n, i, j);
      errors := TransferBetween(i, j, r, n);
    }

    method TransferParties(id: string, target: string, r: string, n: u64) returns (ok: bool, i: nat, j: nat)
      ensures ok == TransferNamed(Views(settlements), registry, id, target, r, n)
      ensures ok ==> i == Find(Views(settlements), id) && j == Find(Views(settlements), target) && r != []
      ensures ok ==> i < |settlements| && j < |settlements| && i != j
    {
      ok, i, j := false, 0, 0;
      if id == [] { return; }
      if target == [] { return; }
      if id == target { return; }
      if r == [] { return; }
      if n == 0 { return; }
      if r !in registry.resources { return; }
      i := FindSettlement(id);
      if i == |settlements| { return; }
      j := FindSettlement(target);
      ok := j < |settlements|;
    }

    method TransferBetween(i: nat, j: nat, r: string, n: u64) returns (errors: nat)
      requires Valid() && i < |settlements| && j < |settlements| && i != j && r != []
      modifies settlements, Stores(settlements)
      ensures Valid()
      ensures var before := old(Views(settlements)); var from, to := before[i].storage, before[j].storage;
        && errors <= 1 && (errors == 0 <==> CanRemove(from, r, n) && CanAdd(to, r, n))
        && Views(settlements) ==
          if errors == 0 then WithStorage(WithStorage(before, i, Removed(from, r, n)), j, Added(to, r, n)) else before
    {
      ghost var before := Views(settlements);
      errors := Transfer(settlements[i].storage, settlements[j].storage, r, n);
      forall k | 0 <= k < |settlements| && k != i && k != j ensures settlements[k].View() == before[k] {
        assert settlements[k].storage != settlements[i].storage && settlements[k].storage != settlements[j].storage;
      }
    }

    // ---- commands that log themselves ----

    method Log(name: string, errors: nat)
      requires Valid()
      modifies this`events
      ensures View() == old(View()).(events := old(events) + [CommandEvent(currentDay, name, errors == 0)])
    {
      events := events + [CommandEvent(currentDay, name, errors == 0)];
    }

    method CreateSettlementCommand(id: string) returns (errors: nat)
      requires Valid()
      modifies this`settlements, this`events
      ensures Valid() && old(settlements) <= settlements
      ensures forall i :: |old(settlements)| <= i < |settlements| ==>
        fresh(settlements[i]) && fresh(settlements[i].storage)
      ensures errors <= 1
      ensures errors == 0 <==> Accepts(old(View()).settlements, registry, Command.CreateSettlement(id))
      ensures View() == Commanded(old(View()), registry, Command.CreateSettlement(id))
    {
      errors := CreateSettlement(id);
      Log(CREATE_SETTLEMENT, errors);
    }

    method AddBuildingCommand(id: string, b: Building) returns (errors: nat)
      requires Valid()
      modifies this`events, settlements, Stores(settlements)
      ensures Valid()
      ensures errors <= 1
      ensures errors == 0 <==> Accepts(old(View()).settlements, registry, Command.AddBuilding(id, b))
      ensures View() == Commanded(old(View()), registry, Command.AddBuilding(id, b))
    {
      errors := AddBuilding(id, b);
      Log(ADD_BUILDING, errors);
    }

    method AddResourceCommand(id: string, r: string, n: u64) returns (errors: nat)
      requires Valid()
      modifies this`events, settlements, Stores(settlements)
      ensures Valid()
      ensures errors <= 1
      ensures errors == 0 <==> Accepts(old(View()).settlements, registry, Command.AddResource(id, r, n))
      ensures View() == Commanded(old(View()), registry, Command.AddResource(id, r, n))
    {
      errors := AddResource(id, r, n);
      Log(ADD_RESOURCE, errors);
    }

    method RemoveResourceCommand(id: string, r: string, n: u64) returns (errors: nat)
      requires Valid()
      modifies this`events, settlements, Stores(settlements)
      ensures Valid()
      ensures errors <= 1
      ensures errors == 0 <==> Accepts(old(View()).settlements, registry, Command.RemoveResource(id, r, n))
      ensures View() == Commanded(old(View()), registry, Command.RemoveResource(id, r, n))
    {
      errors := RemoveResource(id, r, n);
      Log(REMOVE_RESOURCE, errors);
    }

    method TransferResourceCommand(id: string, target: string, r: string, n: u64) returns (errors: nat)
      requires Valid()
      modifies this`events, settlements, Stores(settlements)
      ensures Valid()
      ensures errors <= 1
      ensures errors == 0 <==> Accepts(old(View()).settlements, registry, Command.TransferResource(id, target, r, n))
      ensures View() == Commanded(old(View()), registry, Command.TransferResource(id, target, r, n))
    {
      hide Execute, Accepts;
      errors := TransferResource(id, target, r, n);
      Log(TRANSFER_RESOURCE, errors);
    }

    // ---- days ----

    method AdvanceOne(i: nat) returns (report: TickReport)
      requires Valid() && i < |settlements|
      modifies settlements[i], settlements[i].storage
      ensures var before := old(Views(settlements));
        Views(settlements) == before[i := DayLater(before[i], registry)] && IsTickOf(report, before[i], registry)
    {
      hide TickSettlement, AfterTick, Report;
      ghost var before := Views(settlements);
      report := settlements[i].AdvanceDay(registry);
      OneViewChanged(settlements, before, i);
    }

    method AdvanceSettlements(day: u64)
      returns (ticks: seq<TickReport>, reports: seq<SettlementReport>, log: seq<SimulationEvent>, warnings: nat)
      requires Valid()
      modifies settlements, Stores(settlements)
      ensures Valid()
      ensures Views(settlements) == Advanced(old(Views(settlements)), registry)
      ensures log == AdvancedEvents(day, old(Views(settlements)))
      ensures TicksOf(ticks, old(Views(settlements)), registry) && warnings == Warnings(ticks)
      ensures ReportsOf(reports, Views(settlements), registry)
    {
      hide SomeAdvanced, DayLater, IsTickOf, IsReportOf, AdvancedEvent, Advanced, AdvancedEvents, TicksOf, ReportsOf,
           Warnings;
      ghost var before := Views(settlements);
      ticks, reports, log, warnings := [], [], [], 0;
      NoneAdvanced(before, registry, day);
      for i := 0 to |settlements|
        invariant Valid() && SomeAdvanced(before, registry, day, i, Views(settlements), ticks, reports, log)
        invariant warnings == Warnings(ticks)
      {
        ghost var views := Views(settlements);
        var tick := AdvanceOne(i);
        var report := MakeSettlementReport(settlements[i].View(), registry);
        OneMoreAdvanced(before, registry, day, i, views, ticks, reports, log, tick, report);
        ticks, reports, log := ticks + [tick], reports + [report], log + [AdvancedEvent(day, settlements[i].id)];
        warnings := warnings + tick.warnings;
      }
      AllAdvanced(before, registry, day, Views(settlements), ticks, reports, log);
    }

    method Copies() returns (copies: seq<Settlement>)
      ensures copies == Views(settlements)
    {
      copies := [];
      for i := 0 to |settlements|
        invariant copies == Views(settlements)[..i]
      {
        copies := copies + [settlements[i].View()];
      }
    }

    method ReportMarket() returns (report: MarketReport)
      ensures IsMarketOf(report, Views(settlements), market.demands, registry)
    {
      hide IsMarketReport, Pool;
      var copies := Copies();
      var pool := AggregateStorage(copies);
      report := MakeMarketReport(registry, pool.entries, market.demands);
      assert Views(settlements) == copies;
    }

    method ReportSettlements() returns (reports: seq<SettlementReport>)
      ensures ReportsOf(reports, Views(settlements), registry)
    {
      hide IsReportOf;
      reports := [];
      for i := 0 to |settlements|
        invariant |reports| == i
        invariant forall k :: 0 <= k < i ==> IsReportOf(reports[k], Views(settlements)[k], registry)
      {
        var report := MakeSettlementReport(settlements[i].View(), registry);
        reports := reports + [report];
      }
    }

    method Snapshot() returns (shot: SimulationSnapshot)
      ensures IsSnapshot(shot, View(), registry)
    {
      hide ReportsOf, IsMarketOf;
      ghost var ss := Views(settlements);
      var reports := ReportSettlements();
      assert Views(settlements) == ss;
      var prices := ReportMarket();
      assert Views(settlements) == ss;
      shot := SimulationSnapshot(currentDay, reports, prices, events);
    }

    method AdvanceDay() returns (report: DayReport)
      requires Valid()
      modifies this`currentDay, this`events, settlements, Stores(settlements)
      ensures Valid()
      ensures View() == NextDay(old(View()), registry)
      ensures events == old(events) + report.events
      ensures IsDayReport(report, old(View()), registry)
    {
      hide TicksOf, ReportsOf, IsMarketOf, Advanced, AdvancedEvents;
      currentDay := WrapAdd(currentDay, 1);
      var ticks, reports, log, warnings := AdvanceSettlements(currentDay);
      var prices := ReportMarket();
      var all := [SimulationEvent(currentDay, "simulation.day.started", "simulation day started")] + log
        + [SimulationEvent(currentDay, "simulation.day.completed", "simulation day completed")];
      events := events + all;
      report := DayReport(currentDay, ticks, reports, prices, all, warnings);
      assert DayEvents(currentDay, old(View()).settlements) == all;
    }

    method RunDays(n: u64) returns (reports: seq<DayReport>)
      requires Valid()
      modifies this`currentDay, this`events, settlements, Stores(settlements)
      ensures Valid()
      ensures View() == DaysLater(old(View()), registry, n)
      ensures |reports| == n && events == old(events) + AllEvents(reports)
      ensures forall i :: 0 <= i < n ==> IsDayReport(reports[i], DaysLater(old(View()), registry, i), registry)
    {
      hide *;
      reports := [];
      ghost var start := View();
      NoDays(start, registry);
      for i := 0 to n
        invariant Valid()
        invariant View() == DaysLater(start, registry, i)
        invariant |reports| == i && events == old(events) + AllEvents(reports)
        invariant forall k :: 0 <= k < i ==> IsDayReport(reports[k], DaysLater(start, registry, k), registry)
      {
        OneMoreDay(start, registry, i);
        var report := AdvanceDay();
        EventsSnoc(reports, report);
        reports := reports + [report];
      }
    }

    // ---- saving and restoring ----

    // The settlements are copied; the demand table is written out in whatever order the map yields.
    method ExportState() returns (saved: Saved)
      requires Valid()
      ensures IsExport(saved, View())
    {
      var copies := Copies();
      var order := VisitOrder(market.demands.Keys);
      var rows: seq<DemandRow> := [];
      for i := 0 to |order|
        invariant |rows| == i
        invariant forall k :: 0 <= k < i ==>
          order[k] in market.demands && rows[k] == DemandRow(order[k], market.demands[order[k]])
      {
        assert order[i] in Elements(order);
        rows := rows + [DemandRow(order[i], market.demands[order[i]])];
      }
      forall r | r in market.demands ensures exists i :: 0 <= i < |rows| && rows[i].resourceId == r {
        assert r in Elements(order);
        var i :| 0 <= i < |order| && order[i] == r;
        assert rows[i].resourceId == r;
      }
      saved := Saved(currentDay, copies, events, rows);
    }

    // Everything is checked before anything is changed.
    method RestoreState(saved: Saved) returns (errors: nat)
      requires Valid()
      modifies this`currentDay, this`settlements, this`events, market
      ensures Valid()
      ensures settlements == old(settlements)
        || (forall i :: 0 <= i < |settlements| ==> fresh(settlements[i]) && fresh(settlements[i].storage))
      ensures errors == 0 <==> Acceptable(saved, registry)
      ensures View() == Restored(old(View()), saved, registry)
    {
      hide SettlementsValid, DemandsValid, DemandTable;
      var settlementErrors := CheckSettlements(saved.settlements, registry);
      var demandErrors := CheckDemands(saved.demands, registry);
      errors := settlementErrors + demandErrors;
      if errors > 0 { return; }
      var staged, problems := Stage(saved.demands, registry);
      errors := problems;
      if errors > 0 { return; }
      Commit(saved, staged);
    }

    method Commit(saved: Saved, staged: MarketState)
      requires Valid()
      modifies this`currentDay, this`settlements, this`events, market
      ensures Valid() && (forall i :: 0 <= i < |settlements| ==> fresh(settlements[i]) && fresh(settlements[i].storage))
      ensures View() == State(saved.day, saved.settlements, saved.events, old(staged.demands))
    {
      var rebuilt := Rebuild(saved.settlements);
      currentDay, settlements, events := saved.day, rebuilt, saved.events;
      market.demands := staged.demands;
    }
  }

  // A day in progress: the first i settlements have had their tick.
  ghost predicate SomeAdvanced(before: seq<Settlement>, registry: Registry, day: u64, i: nat, views: seq<Settlement>,
                               ticks: seq<TickReport>, reports: seq<SettlementReport>, log: seq<SimulationEvent>) {
    && |ticks| == |log| == |reports| == i <= |before| == |views|
    && (forall k :: 0 <= k < |before| ==> views[k] == if k < i then DayLater(before[k], registry) else before[k])
    && (forall k :: 0 <= k < i ==>
          log[k] == AdvancedEvent(day, before[k].id) && IsTickOf(ticks[k], before[k], registry))
    && (forall k :: 0 <= k < i ==> IsReportOf(reports[k], views[k], registry))
  }

  lemma NoneAdvanced(before: seq<Settlement>, registry: Registry, day: u64)
    ensures SomeAdvanced(before, registry, day, 0, before, [], [], []) && Warnings([]) == 0
  {
  }

  lemma OneMoreAdvanced(before: seq<Settlement>, registry: Registry, day: u64, i: nat, views: seq<Settlement>,
                        ticks: seq<TickReport>, reports: seq<SettlementReport>, log: seq<SimulationEvent>,
                        tick: TickReport, report: SettlementReport)
    requires i < |before| == |views| && SomeAdvanced(before, registry, day, i, views, ticks, reports, log)
    requires IsTickOf(tick, views[i], registry) && IsReportOf(report, DayLater(views[i], registry), registry)
    ensures SomeAdvanced(before, registry, day, i + 1, views[i := DayLater(views[i], registry)],
                         ticks + [tick], reports + [report], log + [AdvancedEvent(day, views[i].id)])
    ensures Warnings(ticks + [tick]) == Warnings(ticks) + tick.warnings
  {
    hide DayLater, IsTickOf, IsReportOf, AdvancedEvent;
    assert (ticks + [tick])[..|ticks|] == ticks;
  }

  lemma AllAdvanced(before: seq<Settlement>, registry: Registry, day: u64, views: seq<Settlement>,
                    ticks: seq<TickReport>, reports: seq<SettlementReport>, log: seq<SimulationEvent>)
    requires SomeAdvanced(before, registry, day, |before|, views, ticks, reports, log)
    ensures views == Advanced(before, registry) && log == AdvancedEvents(day, before)
    ensures TicksOf(ticks, before, registry) && ReportsOf(reports, views, registry)
  {
    hide DayLater, IsTickOf, IsReportOf, AdvancedEvent, Advanced, AdvancedEvents;
  }

  method Rebuild(ss: seq<Settlement>) returns (rebuilt: seq<SettlementState>)
    ensures Apart(rebuilt) && (forall k :: 0 <= k < |rebuilt| ==> fresh(rebuilt[k]) && fresh(rebuilt[k].storage))
            && Views(rebuilt) == ss
  {
    rebuilt := [];
    for i := 0 to |ss|
      invariant Apart(rebuilt) && (forall k :: 0 <= k < |rebuilt| ==> fresh(rebuilt[k]) && fresh(rebuilt[k].storage))
                && |rebuilt| == i
      invariant forall k :: 0 <= k < i ==> rebuilt[k].View() == ss[k]
    {
      var s := new SettlementState.FromValue(ss[i]);
      forall k | 0 <= k < i ensures rebuilt[k] != s && rebuilt[k].storage != s.storage {
        assert rebuilt[k] in rebuilt;
      }
      rebuilt := rebuilt + [s];
    }
  }

  // A demand that passed the checks is never refused by the market.
  method Stage(ds: seq<DemandRow>, registry: Registry) returns (staged: MarketState, errors: nat)
    requires DemandsValid(ds, registry)
    ensures fresh(staged) && staged.demands == DemandTable(ds) && errors == 0
  {
    staged := new MarketState();
    errors := 0;
    for i := 0 to |ds|
      invariant fresh(staged) && staged.demands == DemandTable(ds[..i]) && errors == 0
    {
      assert ds[..i + 1][..i] == ds[..i];
      var problems := staged.SetDemand(ds[i].resourceId, ds[i].demand);
      errors := errors + problems;
    }
    assert ds[..|ds|] == ds;
  }

  method CheckStorage(stock: Stock, registry: Registry) returns (errors: nat)
    ensures errors == 0 <==> Stocked(stock, registry)
  {
    errors := 0;
    var left := stock.Keys;
    while left != {}
      invariant left <= stock.Keys
      invariant errors == 0 <==> forall r <- stock :: r !in left ==> r != [] && stock[r] > 0 && r in registry.resources
      decreases |left|
    {
      var r :| r in left;
      left := left - {r};
      if r == [] {
        errors := errors + 1;
        continue;
      }
      if stock[r] == 0 { errors := errors + 1; }
      if r !in registry.resources { errors := errors + 1; }
    }
  }

  method CheckSettlements(ss: seq<Settlement>, registry: Registry) returns (errors: nat)
    ensures (errors == 0) == SettlementsValid(ss, registry)
  {
    errors := 0;
    var ids: set<string> := {};
    for i := 0 to |ss|
      invariant errors == 0 <==> SettlementsValid(ss[..i], registry)
      invariant forall id :: id in ids <==> id != [] && exists k :: 0 <= k < i && ss[k].id == id
    {
      assert ss[..i + 1] == ss[..i] + [ss[i]];
      if ss[i].id == [] {
        errors := errors + 1;
        continue;
      }
      if ss[i].id in ids { errors := errors + 1; }
      ids := ids + {ss[i].id};
      var problems := CheckStorage(ss[i].storage, registry);
      errors := errors + problems;
    }
    assert ss[..|ss|] == ss;
  }

  method CheckDemands(ds: seq<DemandRow>, registry: Registry) returns (errors: nat)
    ensures (errors == 0) == DemandsValid(ds, registry)
  {
    errors := 0;
    var ids: set<string> := {};
    for i := 0 to |ds|
      invariant errors == 0 <==> DemandsValid(ds[..i], registry)
      invariant forall id :: id in ids <==> id != [] && exists k :: 0 <= k < i && ds[k].resourceId == id
    {
      assert ds[..i + 1] == ds[..i] + [ds[i]];
      if ds[i].resourceId == [] {
        errors := errors + 1;
        continue;
      }
      if ds[i].resourceId in ids { errors := errors + 1; }
      ids := ids + {ds[i].resourceId};
      if ds[i].resourceId !in registry.resources { errors := errors + 1; }
    }
    assert ds[..|ds|] == ds;
  }
}
