// What commands, days and restored saves do to an engine, told from the raw fields.
module EngineTerms {
  import opened U64
  import opened Records
  import opened Storage
  import opened DataRegistry
  import opened Settlement
  import opened MarketListing
  import opened Engine

  predicate FirstWith(ss: seq<Settlement>, id: string, i: nat) {
    i < |ss| && ss[i].id == id && forall k :: 0 <= k < i ==> ss[k].id != id
  }

  lemma FindIsFirst(ss: seq<Settlement>, id: string, i: nat)
    requires FirstWith(ss, id, i)
    ensures Find(ss, id) == i && Has(ss, id)
  {
  }

  // ---- commands ----

  // Whatever comes of a command, one event is logged on the current day, under its name and outcome.
  lemma CommandIsLogged(e: State, registry: Registry, c: Command)
    ensures var after := Commanded(e, registry, c);
      && |after.events| == |e.events| + 1 && after.events[..|e.events|] == e.events
      && after.day == e.day && after.demands == e.demands
      && (!Accepts(e.settlements, registry, c) ==> after.settlements == e.settlements)
    ensures var event := Commanded(e, registry, c).events[|e.events|];
      var name := match c {
        case CreateSettlement(_) => "create_settlement"
        case AddBuilding(_, _) => "add_building_to_settlement"
        case AddResource(_, _, _) => "add_resource_to_settlement"
        case RemoveResource(_, _, _) => "remove_resource_from_settlement"
        case TransferResource(_, _, _, _) => "transfer_resource_between_settlements"
      };
      if Accepts(e.settlements, registry, c) then
        event == SimulationEvent(e.day, "simulation.command.succeeded", name + " succeeded")
      else event == SimulationEvent(e.day, "simulation.command.failed", name + " failed")
  {
    hide Accepts;
    var event := CommandEvent(e.day, Name(c), Accepts(e.settlements, registry, c));
    assert Commanded(e, registry, c).events == e.events + [event];
  }

  // Nothing but the stock of the settlements at `from` and `to` changes, by n of r.
  ghost predicate Moves(before: seq<Settlement>, after: seq<Settlement>, from: int, to: int, r: string, n: u64) {
    && |after| == |before|
    && (forall k :: 0 <= k < |before| ==> after[k] == before[k].(storage := after[k].storage))
    && forall k, q :: 0 <= k < |before| ==>
         Amount(after[k].storage, q) == Amount(before[k].storage, q)
                                        + (if k == to && q == r then n else 0) - (if k == from && q == r then n else 0)
  }

  // A settlement is founded from its definition exactly when there is one and its name is free.
  lemma FoundsExactly(ss: seq<Settlement>, registry: Registry, id: string)
    ensures Accepts(ss, registry, Command.CreateSettlement(id)) <==>
      id != "" && id in registry.settlements && forall k :: 0 <= k < |ss| ==> ss[k].id != id
    ensures Accepts(ss, registry, Command.CreateSettlement(id)) ==>
      var d := registry.settlements[id];
      Execute(ss, registry, Command.CreateSettlement(id))
      == ss + [Settlement(id, d.displayName, d.population, map[], [], [])]
  {
  }

  // A building joins the first settlement of that name, with no more workers than it has slots.
  lemma BuildsExactly(ss: seq<Settlement>, registry: Registry, id: string, b: Building)
    ensures Accepts(ss, registry, Command.AddBuilding(id, b)) <==>
      && id != "" && (exists i: nat :: FirstWith(ss, id, i))
      && b.definitionId in registry.buildings && b.workers <= registry.buildings[b.definitionId].workerSlots
    ensures forall i: nat :: Accepts(ss, registry, Command.AddBuilding(id, b)) && FirstWith(ss, id, i) ==>
      Execute(ss, registry, Command.AddBuilding(id, b)) == ss[i := ss[i].(buildings := ss[i].buildings + [b])]
  {
    if Has(ss, id) { assert FirstWith(ss, id, Find(ss, id)); }
    forall i: nat | FirstWith(ss, id, i) ensures Find(ss, id) == i && Has(ss, id) { FindIsFirst(ss, id, i); }
  }

  lemma AddsExactly(ss: seq<Settlement>, registry: Registry, id: string, r: string, n: u64)
    ensures var c := Command.AddResource(id, r, n);
      Accepts(ss, registry, c) <==>
        && id != "" && r != "" && n > 0 && r in registry.resources
        && exists i: nat :: FirstWith(ss, id, i) && Amount(ss[i].storage, r) + n <= U64_MAX
    ensures forall i: nat :: Accepts(ss, registry, Command.AddResource(id, r, n)) && FirstWith(ss, id, i) ==>
      Moves(ss, Execute(ss, registry, Command.AddResource(id, r, n)), -1, i, r, n)
  {
    if Has(ss, id) { assert FirstWith(ss, id, Find(ss, id)); }
    forall i: nat | FirstWith(ss, id, i) ensures Find(ss, id) == i && Has(ss, id) { FindIsFirst(ss, id, i); }
    hide Find;
  }

  lemma RemovesExactly(ss: seq<Settlement>, registry: Registry, id: string, r: string, n: u64)
    ensures var c := Command.RemoveResource(id, r, n);
      Accepts(ss, registry, c) <==>
        && id != "" && r != "" && n > 0 && r in registry.resources
        && exists i: nat :: FirstWith(ss, id, i) && Amount(ss[i].storage, r) >= n
    ensures forall i: nat :: Accepts(ss, registry, Command.RemoveResource(id, r, n)) && FirstWith(ss, id, i) ==>
      Moves(ss, Execute(ss, registry, Command.RemoveResource(id, r, n)), i, -1, r, n)
  {
    if Has(ss, id) { assert FirstWith(ss, id, Find(ss, id)); }
    forall i: nat | FirstWith(ss, id, i) ensures Find(ss, id) == i && Has(ss, id) { FindIsFirst(ss, id, i); }
    hide Find;
  }

  lemma TransfersExactly(ss: seq<Settlement>, registry: Registry, id: string, target: string, r: string, n: u64)
    ensures var c := Command.TransferResource(id, target, r, n);
      Accepts(ss, registry, c) <==>
        && id != "" && target != "" && id != target && r != "" && n > 0 && r in registry.resources
        && (exists i: nat :: FirstWith(ss, id, i) && Amount(ss[i].storage, r) >= n)
        && (exists j: nat :: FirstWith(ss, target, j) && Amount(ss[j].storage, r) + n <= U64_MAX)
    ensures var c := Command.TransferResource(id, target, r, n);
      forall i: nat, j: nat :: Accepts(ss, registry, c) && FirstWith(ss, id, i) && FirstWith(ss, target, j) ==>
                                 Moves(ss, Execute(ss, registry, c), i, j, r, n)
  {
    if Has(ss, id) { assert FirstWith(ss, id, Find(ss, id)); }
    if Has(ss, target) { assert FirstWith(ss, target, Find(ss, target)); }
    forall i: nat | FirstWith(ss, id, i) ensures Find(ss, id) == i && Has(ss, id) { FindIsFirst(ss, id, i); }
    forall j: nat | FirstWith(ss, target, j) ensures Find(ss, target) == j && Has(ss, target) {
      FindIsFirst(ss, target, j);
    }
    hide Find;
  }

  // ---- days ----

  // The events of a day: its start, each settlement in turn, and its end.
  ghost predicate TellsDay(events: seq<SimulationEvent>, day: nat, ss: seq<Settlement>) {
    && day <= U64_MAX && |events| == |ss| + 2
    && events[0] == SimulationEvent(day, "simulation.day.started", "simulation day started")
    && (forall i :: 0 <= i < |ss| ==>
          events[i + 1] == SimulationEvent(day, "simulation.settlement.advanced", "advanced settlement: " + ss[i].id))
    && events[|ss| + 1] == SimulationEvent(day, "simulation.day.completed", "simulation day completed")
  }

  lemma DayEventsTell(day: u64, ss: seq<Settlement>)
    ensures TellsDay(DayEvents(day, ss), day, ss)
  {
    var middle := AdvancedEvents(day, ss);
    hide AdvancedEvents;
    var events := DayEvents(day, ss);
    assert forall i :: 0 <= i < |ss| ==> events[i + 1] == middle[i];
  }

  // A day, counted modulo 2^64, appends its events to the log and leaves the demands as they are; every
  // settlement has had 86400 ticks of its own.
  lemma DayIsLogged(e: State, registry: Registry)
    ensures var after, day := NextDay(e, registry), (e.day + 1) % 0x1_0000_0000_0000_0000;
      && after.day == day && after.demands == e.demands
      && |e.events| <= |after.events| && after.events[..|e.events|] == e.events
      && TellsDay(after.events[|e.events|..], day, e.settlements)
    ensures var after := NextDay(e, registry);
      && |after.settlements| == |e.settlements|
      && forall i :: 0 <= i < |e.settlements| ==>
           var s, t := e.settlements[i], TickSettlement(e.settlements[i], registry, 86400);
           after.settlements[i] == s.(storage := t.stock, remainders := t.remainders)
  {
    hide TickSettlement, DayEvents, TellsDay;
    var day := WrapAdd(e.day, 1);
    DayEventsTell(day, e.settlements);
    assert NextDay(e, registry).events[|e.events|..] == DayEvents(day, e.settlements);
  }

  // ---- restored saves ----

  predicate AllKnown(stock: Stock, registry: Registry) {
    forall r :: r in stock ==> r != "" && stock[r] > 0 && r in registry.resources
  }

  predicate Loadable(ss: seq<Settlement>, ds: seq<DemandRow>, registry: Registry) {
    && (forall i :: 0 <= i < |ss| ==> ss[i].id != "")
    && (forall i, j :: 0 <= i < j < |ss| ==> ss[i].id != ss[j].id)
    && (forall i :: 0 <= i < |ss| ==> AllKnown(ss[i].storage, registry))
    && (forall i :: 0 <= i < |ds| ==> ds[i].resourceId != "" && ds[i].resourceId in registry.resources)
    && (forall i, j :: 0 <= i < j < |ds| ==> ds[i].resourceId != ds[j].resourceId)
  }

  lemma LoadableIsAcceptable(saved: Saved, registry: Registry)
    ensures Loadable(saved.settlements, saved.demands, registry) <==> Acceptable(saved, registry)
  {
    forall stock: Stock ensures AllKnown(stock, registry) <==> Stocked(stock, registry) { }
  }

  ghost predicate Holds(m: Demands, ds: seq<DemandRow>) {
    && (forall i :: 0 <= i < |ds| ==> Demanded(m, ds[i].resourceId) == ds[i].demand)
    && (forall r <- m :: m[r] > 0 && exists i :: 0 <= i < |ds| && ds[i].resourceId == r)
  }

  // A save is taken over whole, or not at all: exactly when its settlements have different names and hold
  // known resources, and its demands are for different known resources.
  lemma RestoresExactly(e: State, saved: Saved, registry: Registry)
    ensures var after := Restored(e, saved, registry);
      if Loadable(saved.settlements, saved.demands, registry) then
        && after.day == saved.day && after.settlements == saved.settlements && after.events == saved.events
        && Holds(after.demands, saved.demands)
      else after == e
  {
    LoadableIsAcceptable(saved, registry);
    if Loadable(saved.settlements, saved.demands, registry) { TableTells(saved.demands); }
    hide DemandTable, Acceptable, Holds, Loadable;
  }

  lemma {:induction false} TableKeys(ds: seq<DemandRow>, r: string)
    requires r in DemandTable(ds)
    ensures exists i :: 0 <= i < |ds| && ds[i].resourceId == r
  {
    var n := |ds| - 1;
    if r in DemandTable(ds[..n]) {
      TableKeys(ds[..n], r);
      var i :| 0 <= i < n && ds[..n][i].resourceId == r;
      assert ds[i].resourceId == r;
    } else {
      assert ds[n].resourceId == r;
    }
  }

  lemma {:induction false} TableValues(ds: seq<DemandRow>)
    requires forall i :: 0 <= i < |ds| ==> ds[i].resourceId != ""
    requires forall i, j :: 0 <= i < j < |ds| ==> ds[i].resourceId != ds[j].resourceId
    ensures forall i :: 0 <= i < |ds| ==> Demanded(DemandTable(ds), ds[i].resourceId) == ds[i].demand
    ensures ProperDemands(DemandTable(ds))
  {
    if ds != [] {
      TableValues(ds[..|ds| - 1]);
    }
  }

  lemma TableTells(ds: seq<DemandRow>)
    requires forall i :: 0 <= i < |ds| ==> ds[i].resourceId != ""
    requires forall i, j :: 0 <= i < j < |ds| ==> ds[i].resourceId != ds[j].resourceId
    ensures Holds(DemandTable(ds), ds)
  {
    TableValues(ds);
    hide DemandTable;
    forall r | r in DemandTable(ds) ensures exists i :: 0 <= i < |ds| && ds[i].resourceId == r { TableKeys(ds, r); }
  }
}
