// Whole runs of an engine: what every reachable state satisfies, saving and restoring, and where goods go.
module EngineRuns {
  import opened U64
  import opened Storage
  import opened DataRegistry
  import opened Settlement
  import opened MarketListing
  import opened Engine

  datatype Op = Do(command: Command) | SetDemand(resource: string, demand: u64) | NewDay | Load(saved: Saved)

  function Step(e: State, registry: Registry, op: Op): State {
    match op
    case Do(c) => Commanded(e, registry, c)
    case SetDemand(r, n) => e.(demands := WithDemand(e.demands, r, n))
    case NewDay => NextDay(e, registry)
    case Load(saved) => Restored(e, saved, registry)
  }

  function Play(e: State, registry: Registry, ops: seq<Op>): State {
    if ops == [] then e else Step(Play(e, registry, ops[..|ops| - 1]), registry, ops[|ops| - 1])
  }

  // One operation performed on the object.
  method Perform(engine: SimulationEngine, op: Op)
    requires engine.Valid()
    modifies engine, engine.market, engine.settlements, Stores(engine.settlements)
    ensures engine.Valid() && engine.View() == Step(old(engine.View()), engine.registry, op)
  {
    hide Commanded, NextDay, Restored, WithDemand;
    match op {
      case Do(c) => PerformCommand(engine, c);
      case SetDemand(r, n) => var errors := engine.market.SetDemand(r, n);
      case NewDay => var report := engine.AdvanceDay();
      case Load(saved) => var errors := engine.RestoreState(saved);
    }
  }

  method PerformCommand(engine: SimulationEngine, c: Command)
    requires engine.Valid()
    modifies engine, engine.settlements, Stores(engine.settlements)
    ensures engine.Valid() && engine.View() == Commanded(old(engine.View()), engine.registry, c)
  {
    hide Commanded, Accepts;
    match c {
      case CreateSettlement(id) => var errors := engine.CreateSettlementCommand(id);
      case AddBuilding(id, b) => var errors := engine.AddBuildingCommand(id, b);
      case AddResource(id, r, n) => var errors := engine.AddResourceCommand(id, r, n);
      case RemoveResource(id, r, n) => var errors := engine.RemoveResourceCommand(id, r, n);
      case TransferResource(id, target, r, n) => var errors := engine.TransferResourceCommand(id, target, r, n);
    }
  }

  // ---- what every reachable state satisfies ----

  ghost predicate Sound(e: State, registry: Registry) {
    SettlementsValid(e.settlements, registry) && ProperDemands(e.demands)
  }

  lemma ReplacedStaysValid(ss: seq<Settlement>, registry: Registry, i: nat, s: Settlement)
    requires SettlementsValid(ss, registry) && i < |ss| && s.id == ss[i].id && Stocked(s.storage, registry)
    ensures SettlementsValid(ss[i := s], registry)
  {
    hide Stocked;
  }

  lemma CommandKeepsValid(ss: seq<Settlement>, registry: Registry, c: Command)
    requires SettlementsValid(ss, registry) && Accepts(ss, registry, c)
    ensures SettlementsValid(Execute(ss, registry, c), registry)
  {
    match c {
      case CreateSettlement(id) =>
      case AddBuilding(id, b) =>
        var i := Find(ss, id);
        ReplacedStaysValid(ss, registry, i, ss[i].(buildings := ss[i].buildings + [b]));
      case AddResource(id, r, n) =>
        var i := Find(ss, id);
        ReplacedStaysValid(ss, registry, i, ss[i].(storage := Added(ss[i].storage, r, n)));
      case RemoveResource(id, r, n) =>
        var i := Find(ss, id);
        ReplacedStaysValid(ss, registry, i, ss[i].(storage := Removed(ss[i].storage, r, n)));
      case TransferResource(id, target, r, n) =>
        var i, j := Find(ss, id), Find(ss, target);
        var mid := WithStorage(ss, i, Removed(ss[i].storage, r, n));
        ReplacedStaysValid(ss, registry, i, ss[i].(storage := Removed(ss[i].storage, r, n)));
        ReplacedStaysValid(mid, registry, j, mid[j].(storage := Added(ss[j].storage, r, n)));
    }
  }

  lemma {:induction false} ConsumeKeepsStocked(stock: Stock, inputs: seq<string>, required: u64, registry: Registry)
    requires Stocked(stock, registry)
    ensures Stocked(Consume(stock, inputs, required).stock, registry)
    decreases |inputs|
  {
    if inputs != [] {
      if CanRemove(stock, inputs[0], required) {
        ConsumeKeepsStocked(Removed(stock, inputs[0], required), inputs[1..], required, registry);
      } else {
        ConsumeKeepsStocked(stock, inputs[1..], required, registry);
      }
    }
  }

  lemma {:induction false} ProduceKeepsStocked(stock: Stock, outputs: seq<string>, produced: u64, registry: Registry)
    requires Stocked(stock, registry) && forall i :: 0 <= i < |outputs| ==> outputs[i] in registry.resources
    ensures Stocked(Produce(stock, outputs, produced).stock, registry)
    decreases |outputs|
  {
    if outputs != [] && produced != 0 {
      if CanAdd(stock, outputs[0], produced) {
        ProduceKeepsStocked(Added(stock, outputs[0], produced), outputs[1..], produced, registry);
      } else {
        ProduceKeepsStocked(stock, outputs[1..], produced, registry);
      }
    }
  }

  lemma BuildingKeepsStocked(t: Tick, b: Building, registry: Registry, ticks: u64)
    requires ReferencesValid(registry) && Stocked(t.stock, registry)
    ensures Stocked(TickBuilding(t, b, registry, ticks).stock, registry)
  {
    if b.definitionId in registry.buildings {
      var d := registry.buildings[b.definitionId];
      var required, earned := Required(t, b, d, ticks), Earned(t, b, d, ticks);
      ConsumeKeepsStocked(t.stock, d.inputs, required, registry);
      ProduceKeepsStocked(Consume(t.stock, d.inputs, required).stock, d.outputs, earned, registry);
    }
  }

  lemma {:induction false} BuildingsKeepStocked(t: Tick, bs: seq<Building>, registry: Registry, ticks: u64)
    requires ReferencesValid(registry) && Stocked(t.stock, registry)
    ensures Stocked(TickBuildings(t, bs, registry, ticks).stock, registry)
    decreases |bs|
  {
    if bs != [] {
      BuildingKeepsStocked(t, bs[0], registry, ticks);
      BuildingsKeepStocked(TickBuilding(t, bs[0], registry, ticks), bs[1..], registry, ticks);
    }
  }

  lemma DayKeepsValid(ss: seq<Settlement>, registry: Registry)
    requires ReferencesValid(registry) && SettlementsValid(ss, registry)
    ensures SettlementsValid(Advanced(ss, registry), registry)
  {
    forall i | 0 <= i < |ss| ensures Stocked(DayLater(ss[i], registry).storage, registry) {
      BuildingsKeepStocked(Feed(ss[i], TICKS_PER_DAY), ss[i].buildings, registry, TICKS_PER_DAY);
    }
  }

  lemma {:induction false} TableIsProper(ds: seq<DemandRow>)
    ensures ProperDemands(DemandTable(ds))
  {
    if ds != [] { TableIsProper(ds[..|ds| - 1]); }
  }

  lemma StepKeepsSound(e: State, registry: Registry, op: Op)
    requires ReferencesValid(registry) && Sound(e, registry)
    ensures Sound(Step(e, registry, op), registry)
  {
    match op {
      case Do(c) => if Accepts(e.settlements, registry, c) { CommandKeepsValid(e.settlements, registry, c); }
      case SetDemand(r, n) =>
      case NewDay => DayKeepsValid(e.settlements, registry);
      case Load(saved) => TableIsProper(saved.demands);
    }
  }

  // Settlement ids stay distinct and non-empty and stock stays positive and registered, whatever
  // states are loaded on the way.
  lemma {:induction false} RunKeepsSound(registry: Registry, ops: seq<Op>)
    requires ReferencesValid(registry)
    ensures Sound(Play(FRESH, registry, ops), registry)
  {
    if ops != [] {
      RunKeepsSound(registry, ops[..|ops| - 1]);
      StepKeepsSound(Play(FRESH, registry, ops[..|ops| - 1]), registry, ops[|ops| - 1]);
    }
  }

  // ---- saving and restoring ----

  lemma ListedPrefix(ds: seq<DemandRow>, m: Demands)
    requires ds != [] && Lists(ds, m)
    ensures var r := ds[|ds| - 1].resourceId; Lists(ds[..|ds| - 1], m - {r})
  {
    var n := |ds| - 1;
    var r := ds[n].resourceId;
    forall q <- m - {r} ensures exists i :: 0 <= i < |ds[..n]| && ds[..n][i].resourceId == q {
      var i :| 0 <= i < |ds| && ds[i].resourceId == q;
      assert ds[..n][i] == ds[i];
    }
  }

  // The rows may come back in any order.
  lemma {:induction false} TableOfListing(ds: seq<DemandRow>, m: Demands)
    requires Lists(ds, m) && ProperDemands(m)
    ensures DemandTable(ds) == m
  {
    if ds == [] {
      assert m.Keys == {};
    } else {
      var n := |ds| - 1;
      var r := ds[n].resourceId;
      ListedPrefix(ds, m);
      TableOfListing(ds[..n], m - {r});
      assert (m - {r})[r := m[r]] == m;
    }
  }

  // A sound engine's export is accepted exactly when every demanded resource is registered, and
  // then any engine that loads it becomes the one that was saved; if not, loading changes nothing.
  lemma ExportRestoresExactly(e: State, saved: Saved, other: State, registry: Registry)
    requires Sound(e, registry) && IsExport(saved, e)
    ensures Acceptable(saved, registry) <==> e.demands.Keys <= registry.resources.Keys
    ensures Restored(other, saved, registry) == if Acceptable(saved, registry) then e else other
  {
    if e.demands.Keys <= registry.resources.Keys {
      TableOfListing(saved.demands, e.demands);
    } else {
      var r :| r in e.demands && r !in registry.resources;
      var i :| 0 <= i < |saved.demands| && saved.demands[i].resourceId == r;
      assert !DemandsValid(saved.demands, registry);
    }
  }

  predicate OnlyRegisteredDemands(ops: seq<Op>, registry: Registry) {
    forall i :: 0 <= i < |ops| && ops[i].SetDemand? && ops[i].demand > 0 ==> ops[i].resource in registry.resources
  }

  lemma {:induction false} TableIsRegistered(ds: seq<DemandRow>, registry: Registry)
    requires DemandsValid(ds, registry)
    ensures DemandTable(ds).Keys <= registry.resources.Keys
  {
    if ds != [] { TableIsRegistered(ds[..|ds| - 1], registry); }
  }

  lemma {:induction false} DemandsStayRegistered(registry: Registry, ops: seq<Op>)
    requires OnlyRegisteredDemands(ops, registry)
    ensures Play(FRESH, registry, ops).demands.Keys <= registry.resources.Keys
  {
    if ops != [] {
      var n := |ops| - 1;
      DemandsStayRegistered(registry, ops[..n]);
      if ops[n].Load? && Acceptable(ops[n].saved, registry) { TableIsRegistered(ops[n].saved.demands, registry); }
    }
  }

  // Every engine reachable by commands, days, loads and demands for registered resources is restorable.
  lemma ReachableEnginesRestore(registry: Registry, ops: seq<Op>, other: State)
    requires ReferencesValid(registry) && OnlyRegisteredDemands(ops, registry)
    ensures forall saved :: IsExport(saved, Play(FRESH, registry, ops)) ==>
      Acceptable(saved, registry) && Restored(other, saved, registry) == Play(FRESH, registry, ops)
  {
    hide Sound;
    RunKeepsSound(registry, ops);
    DemandsStayRegistered(registry, ops);
    forall saved | IsExport(saved, Play(FRESH, registry, ops))
      ensures Acceptable(saved, registry) && Restored(other, saved, registry) == Play(FRESH, registry, ops)
    {
      ExportRestoresExactly(Play(FRESH, registry, ops), saved, other, registry);
    }
  }

  // The market takes a demand for any name at all; the save made afterwards is then refused.
  lemma UnregisteredDemandBlocksRestore(e: State, registry: Registry, r: string, n: u64)
    requires Sound(e, registry) && r != [] && r !in registry.resources && n > 0
    ensures forall saved :: IsExport(saved, Step(e, registry, SetDemand(r, n))) ==> !Acceptable(saved, registry)
  {
    var e' := Step(e, registry, SetDemand(r, n));
    assert r in e'.demands.Keys;
    forall saved | IsExport(saved, e') ensures !Acceptable(saved, registry) {
      ExportRestoresExactly(e', saved, e, registry);
    }
  }
}
