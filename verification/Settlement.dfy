// One settlement's tick: fractional accumulators, food, and production chains.
module Settlement {
  import opened U64
  import opened Lookup
  import opened Storage
  import opened DataRegistry

  datatype Building = Building(definitionId: string, workers: u32)

  datatype Remainder = Remainder(key: string, numerator: u64)

  // A settlement as a value: what copies, exports and specifications are about.
  datatype Settlement = Settlement(
    id: string, displayName: string, population: u64,
    storage: Stock, buildings: seq<Building>, remainders: seq<Remainder>)

  datatype TickReport = TickReport(
    settlementId: string, elapsed: u64, consumedFood: u64, consumedInputs: u64, producedResources: u64,
    active: u32, skipped: u32, warnings: nat)

  function FoodNeeded(population: u64): u64 {
    if population == 0 then 0 else (population - 1) / 10 + 1
  }

  // ---- accumulators ----

  datatype Units = Units(whole: u64, carry: u64)

  // Whole units earned by a rate per day over some ticks, and what is carried over.
  function Accumulate(carry: u64, rate: u64, ticks: u64): Units {
    if rate == 0 || ticks == 0 then Units(0, carry)
    else
      var numerator := SatAdd(carry, SatMul(rate, ticks));
      Units(numerator / TICKS_PER_DAY, numerator % TICKS_PER_DAY)
  }

  function KeyIndex(rs: seq<Remainder>, key: string): (i: nat)
    ensures i <= |rs|
    ensures i < |rs| ==> rs[i].key == key
    ensures forall j :: 0 <= j < i ==> rs[j].key != key
  {
    First(rs, (r: Remainder) => r.key == key)
  }

  function Carry(rs: seq<Remainder>, key: string): u64 {
    var i := KeyIndex(rs, key);
    if i < |rs| then rs[i].numerator else 0
  }

  function SetCarry(rs: seq<Remainder>, key: string, numerator: u64): seq<Remainder> {
    var i := KeyIndex(rs, key);
    if i < |rs| then rs[i := Remainder(key, numerator)] else rs + [Remainder(key, numerator)]
  }

  // A key gets an entry the first time something accrues under it.
  function Scaled(rs: seq<Remainder>, key: string, rate: u64, ticks: u64): seq<Remainder> {
    if rate == 0 || ticks == 0 then rs else SetCarry(rs, key, Accumulate(Carry(rs, key), rate, ticks).carry)
  }

  lemma KeyIndexIs(rs: seq<Remainder>, key: string, i: nat)
    requires i <= |rs| && (i < |rs| ==> rs[i].key == key)
    requires forall j :: 0 <= j < i ==> rs[j].key != key
    ensures KeyIndex(rs, key) == i
  {
  }

  lemma CarryAfterSet(rs: seq<Remainder>, key: string, numerator: u64, other: string)
    ensures Carry(SetCarry(rs, key, numerator), other) == if other == key then numerator else Carry(rs, other)
  {
    var i, j, rs' := KeyIndex(rs, key), KeyIndex(rs, other), SetCarry(rs, key, numerator);
    assert forall m :: 0 <= m < |rs| ==> rs'[m].key == rs[m].key;
    KeyIndexIs(rs', other, if j < |rs| || other == key then j else |rs'|);
  }

  lemma CarryAfterScaled(rs: seq<Remainder>, key: string, rate: u64, ticks: u64, other: string)
    ensures Carry(Scaled(rs, key, rate, ticks), other)
            == if other == key then Accumulate(Carry(rs, key), rate, ticks).carry else Carry(rs, other)
  {
    CarryAfterSet(rs, key, Accumulate(Carry(rs, key), rate, ticks).carry, other);
  }

  // A carry is what the first entry of its key holds, and nothing before there is one.
  lemma CarryTells(rs: seq<Remainder>, key: string)
    ensures forall i :: 0 <= i < |rs| && rs[i].key == key && (forall j :: 0 <= j < i ==> rs[j].key != key) ==>
              Carry(rs, key) == rs[i].numerator
    ensures (forall j :: 0 <= j < |rs| ==> rs[j].key != key) ==> Carry(rs, key) == 0
  {
    forall i | 0 <= i < |rs| && rs[i].key == key && (forall j :: 0 <= j < i ==> rs[j].key != key)
      ensures Carry(rs, key) == rs[i].numerator
    {
      KeyIndexIs(rs, key, i);
    }
  }

  // ---- one building ----

  predicate HasInputs(stock: Stock, inputs: seq<string>, required: u64) {
    forall i :: 0 <= i < |inputs| ==> required == 0 || Amount(stock, inputs[i]) >= required
  }

  // The stock left, and the true amount removed.
  datatype Flow = Flow(stock: Stock, moved: nat, failed: nat)

  function Consume(stock: Stock, inputs: seq<string>, required: u64): Flow
    decreases |inputs|
  {
    if inputs == [] then Flow(stock, 0, 0)
    else if CanRemove(stock, inputs[0], required) then
      var rest := Consume(Removed(stock, inputs[0], required), inputs[1..], required);
      rest.(moved := rest.moved + required)
    else
      var rest := Consume(stock, inputs[1..], required);
      rest.(failed := rest.failed + 1)
  }

  function Produce(stock: Stock, outputs: seq<string>, produced: u64): Flow
    decreases |outputs|
  {
    if produced == 0 || outputs == [] then Flow(stock, 0, 0)
    else if CanAdd(stock, outputs[0], produced) then
      var rest := Produce(Added(stock, outputs[0], produced), outputs[1..], produced);
      rest.(moved := rest.moved + produced)
    else
      var rest := Produce(stock, outputs[1..], produced);
      rest.(failed := rest.failed + 1)
  }

  // A tick in progress.  `inputs` and `outputs` count without bound; reports saturate them.
  datatype Tick = Tick(
    stock: Stock, remainders: seq<Remainder>, food: u64, inputs: nat, outputs: nat,
    active: u32, skipped: u32, warnings: nat)

  function Skip(t: Tick): Tick {
    t.(skipped := WrapInc32(t.skipped), warnings := t.warnings + 1)
  }

  function Workers(b: Building, d: BuildingDefinition): u32 { Min(b.workers, d.workerSlots) }

  function InputKey(id: string): string { "input:" + id }
  function OutputKey(id: string): string { "output:" + id }

  function Accrue(t: Tick, b: Building, d: BuildingDefinition, ticks: u64): Tick {
    var rs := Scaled(t.remainders, InputKey(b.definitionId), Workers(b, d), ticks);
    t.(remainders := Scaled(rs, OutputKey(b.definitionId), Workers(b, d), ticks))
  }

  function Required(t: Tick, b: Building, d: BuildingDefinition, ticks: u64): u64 {
    Accumulate(Carry(t.remainders, InputKey(b.definitionId)), Workers(b, d), ticks).whole
  }

  // The output accumulator is read after the input accumulator has been written.
  function Earned(t: Tick, b: Building, d: BuildingDefinition, ticks: u64): u64 {
    var rs := Scaled(t.remainders, InputKey(b.definitionId), Workers(b, d), ticks);
    Accumulate(Carry(rs, OutputKey(b.definitionId)), Workers(b, d), ticks).whole
  }

  function Run(t: Tick, d: BuildingDefinition, required: u64, produced: u64): Tick {
    if required == 0 && produced == 0 then t
    else if !HasInputs(t.stock, d.inputs, required) then Skip(t)
    else
      var drawn := Consume(t.stock, d.inputs, required);
      var made := Produce(drawn.stock, d.outputs, produced);
      t.(stock := made.stock, inputs := t.inputs + drawn.moved, outputs := t.outputs + made.moved,
         active := WrapInc32(t.active), warnings := t.warnings + made.failed)
  }

  function TickBuilding(t: Tick, b: Building, registry: Registry, ticks: u64): Tick {
    if b.definitionId !in registry.buildings then Skip(t)
    else
      var d := registry.buildings[b.definitionId];
      if Workers(b, d) == 0 then Skip(t)
      else Run(Accrue(t, b, d, ticks), d, Required(t, b, d, ticks), Earned(t, b, d, ticks))
  }

  function TickBuildings(t: Tick, bs: seq<Building>, registry: Registry, ticks: u64): Tick
    decreases |bs|
  {
    if bs == [] then t else TickBuildings(TickBuilding(t, bs[0], registry, ticks), bs[1..], registry, ticks)
  }

  const FOOD := "grain"
  const FOOD_KEY := "food:grain"

  function Feed(s: Settlement, ticks: u64): Tick {
    var rate := FoodNeeded(s.population);
    var needed := Accumulate(Carry(s.remainders, FOOD_KEY), rate, ticks).whole;
    var eaten := RemovableUpTo(s.storage, FOOD, needed);
    Tick(RemovedUpTo(s.storage, FOOD, needed), Scaled(s.remainders, FOOD_KEY, rate, ticks),
         eaten, 0, 0, 0, 0, if eaten < needed then 1 else 0)
  }

  function TickSettlement(s: Settlement, registry: Registry, ticks: u64): Tick {
    TickBuildings(Feed(s, ticks), s.buildings, registry, ticks)
  }

  function AfterTick(s: Settlement, t: Tick): Settlement {
    s.(storage := t.stock, remainders := t.remainders)
  }

  function Report(s: Settlement, ticks: u64, t: Tick): TickReport {
    TickReport(s.id, ticks, t.food, Min(t.inputs, U64_MAX), Min(t.outputs, U64_MAX), t.active, t.skipped, t.warnings)
  }

  // ---- the settlement object ----

  class SettlementState {
    const id: string
    const displayName: string
    const population: u64
    const storage: ResourceStorage
    var buildings: seq<Building>
    var remainders: seq<Remainder>

    constructor (id: string, displayName: string, population: u64)
      ensures fresh(storage)
      ensures View() == Settlement(id, displayName, population, map[], [], [])
    {
      this.id, this.displayName, this.population := id, displayName, population;
      storage := new ResourceStorage();
      buildings, remainders := [], [];
    }

    // A copy shares nothing with what it copies.
    constructor FromValue(s: Settlement)
      ensures fresh(storage) && View() == s
    {
      id, displayName, population := s.id, s.displayName, s.population;
      var goods := new ResourceStorage();
      storage := goods;
      buildings, remainders := s.buildings, s.remainders;
      new;
      storage.entries := s.storage;
    }

    function View(): Settlement
      reads this, storage
    {
      Settlement(id, displayName, population, storage.entries, buildings, remainders)
    }

    method AddBuilding(registry: Registry, b: Building) returns (errors: nat)
      modifies this`buildings
      ensures errors <= 1
      ensures errors == 0 <==> b.definitionId in registry.buildings
                               && b.workers <= registry.buildings[b.definitionId].workerSlots
      ensures buildings == if errors == 0 then old(buildings) + [b] else old(buildings)
    {
      if b.definitionId !in registry.buildings { return 1; }
      if b.workers > registry.buildings[b.definitionId].workerSlots { return 1; }
      buildings := buildings + [b];
      return 0;
    }

    method ConsumeScaledUnits(key: string, rate: u64, ticks: u64) returns (whole: u64)
      modifies this`remainders
      ensures whole == Accumulate(Carry(old(remainders), key), rate, ticks).whole
      ensures remainders == Scaled(old(remainders), key, rate, ticks)
    {
      if rate == 0 || ticks == 0 { return 0; }
      var i := 0;
      while i < |remainders| && remainders[i].key != key
        invariant i <= |remainders|
        invariant forall j :: 0 <= j < i ==> remainders[j].key != key
      {
        i := i + 1;
      }
      if i == |remainders| {
        remainders := remainders + [Remainder(key, 0)];
      }
      var numerator := SatAdd(remainders[i].numerator, SatMul(rate, ticks));
      remainders := remainders[i := Remainder(key, numerator % TICKS_PER_DAY)];
      return numerator / TICKS_PER_DAY;
    }

    method HasRequiredInputs(inputs: seq<string>, required: u64) returns (ok: bool)
      ensures ok == HasInputs(storage.entries, inputs, required)
    {
      for i := 0 to |inputs|
        invariant forall j :: 0 <= j < i ==> required == 0 || Amount(storage.entries, inputs[j]) >= required
      {
        if required > 0 && Amount(storage.entries, inputs[i]) < required { return false; }
      }
      return true;
    }

    method ConsumeInputs(inputs: seq<string>, required: u64) returns (consumed: u64)
      modifies storage
      ensures var flow := Consume(old(storage.entries), inputs, required);
              storage.entries == flow.stock && consumed == Min(flow.moved, U64_MAX)
    {
      consumed := 0;
      ghost var moved := 0;
      assert inputs[0..] == inputs;
      for i := 0 to |inputs|
        invariant consumed == Min(moved, U64_MAX)
        invariant var all := Consume(old(storage.entries), inputs, required);
                  var rest := Consume(storage.entries, inputs[i..], required);
                  all.stock == rest.stock && all.moved == moved + rest.moved
      {
        assert inputs[i..][0] == inputs[i] && inputs[i..][1..] == inputs[i + 1..];
        var removed := storage.TryRemove(inputs[i], required);
        if required > 0 && removed {
          consumed := SatAdd(consumed, required);
          moved := moved + required;
        }
      }
    }

    method StoreOutputs(outputs: seq<string>, produced: u64) returns (total: u64, warnings: nat)
      modifies storage
      ensures var flow := Produce(old(storage.entries), outputs, produced);
              storage.entries == flow.stock && total == Min(flow.moved, U64_MAX) && warnings == flow.failed
    {
      total, warnings := 0, 0;
      ghost var moved := 0;
      assert outputs[0..] == outputs;
      for i := 0 to |outputs|
        invariant total == Min(moved, U64_MAX)
        invariant var all := Produce(old(storage.entries), outputs, produced);
                  var rest := Produce(storage.entries, outputs[i..], produced);
                  all.stock == rest.stock && all.moved == moved + rest.moved && all.failed == warnings + rest.failed
      {
        assert outputs[i..][0] == outputs[i] && outputs[i..][1..] == outputs[i + 1..];
        if produced == 0 { continue; }
        var errors := storage.Add(outputs[i], produced);
        if errors > 0 {
          warnings := warnings + 1;
          continue;
        }
        total := SatAdd(total, produced);
        moved := moved + produced;
      }
    }

    // One building's share of a tick, continuing the report so far.
    method TickOneBuilding(registry: Registry, b: Building, ticks: u64, sofar: TickReport, ghost t: Tick)
      returns (report: TickReport)
      modifies this`remainders, storage
      requires t.stock == storage.entries && t.remainders == remainders && sofar == Report(View(), ticks, t)
      ensures var t' := TickBuilding(t, b, registry, ticks);
              t'.stock == storage.entries && t'.remainders == remainders && report == Report(View(), ticks, t')
    {
      report := sofar;
      if b.definitionId !in registry.buildings {
        return report.(skipped := WrapInc32(report.skipped), warnings := report.warnings + 1);
      }
      var d := registry.buildings[b.definitionId];
      var workers := Workers(b, d);
      if workers == 0 {
        return report.(skipped := WrapInc32(report.skipped), warnings := report.warnings + 1);
      }
      var required := ConsumeScaledUnits(InputKey(b.definitionId), workers, ticks);
      var produced := ConsumeScaledUnits(OutputKey(b.definitionId), workers, ticks);
      if required == 0 && produced == 0 { return; }
      var ready := HasRequiredInputs(d.inputs, required);
      if !ready {
        return report.(skipped := WrapInc32(report.skipped), warnings := report.warnings + 1);
      }
      var consumed := ConsumeInputs(d.inputs, required);
      report := report.(consumedInputs := SatAdd(report.consumedInputs, consumed));
      report := report.(active := WrapInc32(report.active));
      var total, warnings := StoreOutputs(d.outputs, produced);
      report := report.(producedResources := SatAdd(report.producedResources, total),
                        warnings := report.warnings + warnings);
    }

    method AdvanceTicks(registry: Registry, ticks: u64) returns (report: TickReport)
      modifies this`remainders, storage
      ensures var t := TickSettlement(old(View()), registry, ticks);
              View() == AfterTick(old(View()), t) && report == Report(old(View()), ticks, t)
    {
      report := TickReport(id, ticks, 0, 0, 0, 0, 0, 0);
      var needed := ConsumeScaledUnits(FOOD_KEY, FoodNeeded(population), ticks);
      var consumed := storage.RemoveUpTo(FOOD, needed);
      report := report.(consumedFood := consumed);
      if consumed < needed { report := report.(warnings := report.warnings + 1); }
      ghost var t := Feed(old(View()), ticks);
      assert buildings[0..] == buildings;
      for i := 0 to |buildings|
        invariant buildings == old(buildings)
        invariant t.stock == storage.entries && t.remainders == remainders && report == Report(View(), ticks, t)
        invariant TickBuildings(t, buildings[i..], registry, ticks) == TickSettlement(old(View()), registry, ticks)
      {
        assert buildings[i..][0] == buildings[i] && buildings[i..][1..] == buildings[i + 1..];
        report := TickOneBuilding(registry, buildings[i], ticks, report, t);
        t := TickBuilding(t, buildings[i], registry, ticks);
      }
    }

    method AdvanceDay(registry: Registry) returns (report: TickReport)
      modifies this`remainders, storage
      ensures var t := TickSettlement(old(View()), registry, TICKS_PER_DAY);
              View() == AfterTick(old(View()), t) && report == Report(old(View()), TICKS_PER_DAY, t)
    {
      report := AdvanceTicks(registry, TICKS_PER_DAY);
    }
  }
}
