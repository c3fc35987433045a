// How much a settlement eats and what each building's turn does, told from the raw fields.
module SettlementRates {
  import opened U64
  import opened Storage
  import opened DataRegistry
  import opened Settlement
  import opened SettlementLaws
  import opened SettlementFlows

  // ---- food ----

  // One unit a day for every ten people begun.
  predicate FoodRate(u: nat, population: u64) { 10 * u >= population > 10 * (u - 1) }

  lemma FoodNeededIsRate(population: u64)
    ensures FoodRate(FoodNeeded(population), population)
  {
  }

  lemma RateIsUnique(u: nat, v: nat, population: u64)
    requires FoodRate(u, population) && FoodRate(v, population)
    ensures u == v
  {
  }

  lemma {:induction false} BuildingsKeepFood(t: Tick, bs: seq<Building>, registry: Registry, ticks: u64)
    ensures var t' := TickBuildings(t, bs, registry, ticks);
      && t'.food == t.food && t'.warnings >= t.warnings
      && Carry(t'.remainders, FOOD_KEY) == Carry(t.remainders, FOOD_KEY)
    decreases |bs|
  {
    if bs != [] {
      var next := TickBuilding(t, bs[0], registry, ticks);
      BuildingKeepsFood(t, bs[0], registry, ticks);
      BuildingsKeepFood(next, bs[1..], registry, ticks);
    }
  }

  lemma BuildingKeepsFood(t: Tick, b: Building, registry: Registry, ticks: u64)
    ensures var t' := TickBuilding(t, b, registry, ticks);
      && t'.food == t.food && t'.warnings >= t.warnings
      && Carry(t'.remainders, FOOD_KEY) == Carry(t.remainders, FOOD_KEY)
  {
    if b.definitionId in registry.buildings {
      var w, x := Workers(b, registry.buildings[b.definitionId]), b.definitionId;
      KeysApart(x, x);
      CarryAfterScaled(t.remainders, InputKey(x), w, ticks, FOOD_KEY);
      CarryAfterScaled(Scaled(t.remainders, InputKey(x), w, ticks), OutputKey(x), w, ticks, FOOD_KEY);
    }
  }

  // The grain covers what falls due in a tick, and the count of it does not saturate.
  predicate Suffices(s: Settlement, u: nat, ticks: u64) {
    var due := Carry(s.remainders, "food:grain") + u * ticks;
    u * ticks > 0 ==> due <= U64_MAX && due < 86400 * (Amount(s.storage, "grain") + 1)
  }

  // A tick never eats more than what has fallen due, and exactly that when the grain suffices; when the
  // grain is short it eats all there is and warns.
  lemma TickEats(s: Settlement, registry: Registry, ticks: u64, u: nat)
    requires FoodRate(u, s.population)
    ensures var t := TickSettlement(s, registry, ticks);
      var before, after := Carry(s.remainders, "food:grain"), Carry(t.remainders, "food:grain");
      && 86400 * t.food + after <= before + u * ticks
      && (86400 * t.food + after == before + u * ticks <==> Suffices(s, u, ticks))
      && (86400 * t.food + after < Min(before + u * ticks, U64_MAX) ==>
            t.food == Amount(s.storage, "grain") && t.warnings > 0)
      && (s.buildings == [] ==>
            t.warnings == if 86400 * t.food + after < Min(before + u * ticks, U64_MAX) then 1 else 0)
  {
    FoodNeededIsRate(s.population);
    RateIsUnique(u, FoodNeeded(s.population), s.population);
    hide FoodNeeded;
    var before := Carry(s.remainders, FOOD_KEY);
    AccumulateExact(before, u, ticks);
    CarryAfterScaled(s.remainders, FOOD_KEY, u, ticks, FOOD_KEY);
    BuildingsKeepFood(Feed(s, ticks), s.buildings, registry, ticks);
    MulMonotone(u, 0, ticks);
    if u != 0 && ticks != 0 { MulMonotone(u, 1, ticks); }
  }

  function EatenOver(s: Settlement, registry: Registry, steps: seq<u64>): nat
    decreases |steps|
  {
    if steps == [] then 0
    else
      var t := TickSettlement(s, registry, steps[0]);
      t.food + EatenOver(AfterTick(s, t), registry, steps[1..])
  }

  predicate WellFed(s: Settlement, registry: Registry, u: nat, steps: seq<u64>)
    decreases |steps|
  {
    steps != [] ==>
      && Suffices(s, u, steps[0])
      && WellFed(AfterTick(s, TickSettlement(s, registry, steps[0])), registry, u, steps[1..])
  }

  // Over any run a settlement eats what ten people a unit a day come to, to the last fraction carried
  // over, if and only if the grain suffices at every tick; otherwise it eats less.
  lemma {:induction false} PeopleEatExactly(s: Settlement, registry: Registry, steps: seq<u64>, u: nat)
    requires FoodRate(u, s.population)
    ensures var owed := Carry(s.remainders, "food:grain") + u * Sum(steps);
      var accounted := 86400 * EatenOver(s, registry, steps)
                       + Carry(Ticked(s, registry, steps).remainders, "food:grain");
      accounted <= owed && (accounted == owed <==> WellFed(s, registry, u, steps))
    decreases |steps|
  {
    if steps == [] {
      assert u * Sum(steps) == 0;
    } else {
      hide TickSettlement, Suffices, Carry, FoodRate;
      var a, b := steps[0], Sum(steps[1..]);
      assert u * (a + b) == u * a + u * b;
      TickEats(s, registry, a, u);
      PeopleEatExactly(AfterTick(s, TickSettlement(s, registry, a)), registry, steps[1..], u);
    }
  }

  // ---- the turn of one building ----

  // Whole units earned since, and what is carried on.
  predicate Earns(before: u64, after: u64, whole: nat, rate: u64, ticks: u64) {
    && 86400 * whole + after == Min(before + rate * ticks, U64_MAX)
    && (rate * ticks > 0 ==> after < 86400)
    && (rate * ticks == 0 ==> whole == 0)
  }

  lemma AccumulateEarns(before: u64, rate: u64, ticks: u64)
    ensures var a := Accumulate(before, rate, ticks); Earns(before, a.carry, a.whole, rate, ticks)
  {
    AccumulateExact(before, rate, ticks);
    MulMonotone(rate, 0, ticks);
    if rate != 0 && ticks != 0 {
      MulMonotone(rate, 1, ticks);
      assert Accumulate(before, rate, ticks).carry < 86400;
    }
  }

  // A building nobody knows, or without workers, is skipped with a warning and changes nothing else.
  lemma IdleTurn(t: Tick, b: Building, registry: Registry, ticks: u64)
    requires b.definitionId in registry.buildings ==>
               b.workers == 0 || registry.buildings[b.definitionId].workerSlots == 0
    ensures TickBuilding(t, b, registry, ticks)
            == t.(skipped := (t.skipped + 1) % 0x1_0000_0000, warnings := t.warnings + 1)
  {
  }

  // What the turn does to the carries: the workers, or the slots if they are fewer, earn on both sides.
  predicate TurnEarns(t: Tick, t': Tick, id: string, rate: u64, ticks: u64, need: u64, make: u64) {
    && Earns(Carry(t.remainders, "input:" + id), Carry(t'.remainders, "input:" + id), need, rate, ticks)
    && Earns(Carry(t.remainders, "output:" + id), Carry(t'.remainders, "output:" + id), make, rate, ticks)
  }

  lemma TurnCarries(t: Tick, b: Building, registry: Registry, ticks: u64) returns (need: u64, make: u64)
    requires b.definitionId in registry.buildings
    requires b.workers > 0 && registry.buildings[b.definitionId].workerSlots > 0
    ensures var d, t' := registry.buildings[b.definitionId], TickBuilding(t, b, registry, ticks);
      && need == Required(t, b, d, ticks) && make == Earned(t, b, d, ticks)
      && t'.remainders == Accrue(t, b, d, ticks).remainders
      && TurnEarns(t, t', b.definitionId, if b.workers < d.workerSlots then b.workers else d.workerSlots,
                   ticks, need, make)
  {
    var d, x := registry.buildings[b.definitionId], b.definitionId;
    var w := Workers(b, d);
    need, make := Required(t, b, d, ticks), Earned(t, b, d, ticks);
    KeysApart(x, x);
    var rs := Scaled(t.remainders, InputKey(x), w, ticks);
    CarryAfterScaled(t.remainders, InputKey(x), w, ticks, InputKey(x));
    CarryAfterScaled(t.remainders, InputKey(x), w, ticks, OutputKey(x));
    CarryAfterScaled(rs, OutputKey(x), w, ticks, InputKey(x));
    CarryAfterScaled(rs, OutputKey(x), w, ticks, OutputKey(x));
    AccumulateEarns(Carry(t.remainders, InputKey(x)), w, ticks);
    AccumulateEarns(Carry(t.remainders, OutputKey(x)), w, ticks);
    hide Accumulate, Carry, Earns, Consume, Produce, HasInputs;
  }

  // A product that finds no room is not stored, and each such failure is a warning.
  lemma {:induction false} FailuresAreNotStored(stock: Stock, outputs: seq<string>, produced: u64)
    ensures var f := Produce(stock, outputs, produced);
      && f.failed <= |outputs| && f.moved == produced * (|outputs| - f.failed) && (produced == 0 ==> f.failed == 0)
    decreases |outputs|
  {
    if produced == 0 {
      assert produced * |outputs| == 0;
    } else if outputs == [] {
      assert produced * 0 == 0;
    } else if CanAdd(stock, outputs[0], produced) {
      var rest := Produce(Added(stock, outputs[0], produced), outputs[1..], produced);
      FailuresAreNotStored(Added(stock, outputs[0], produced), outputs[1..], produced);
      MulSuccessor(produced, |outputs| - 1 - rest.failed);
    } else {
      FailuresAreNotStored(stock, outputs[1..], produced);
    }
  }

  predicate Short(stock: Stock, inputs: seq<string>, need: u64) {
    exists r :: r in inputs && Amount(stock, r) < need
  }

  // What a working building does: it draws its need of each input and stores its make of each output,
  // as often as each is mentioned and as far as stock and room last, and counts what it moved.
  ghost predicate Worked(t: Tick, t': Tick, d: BuildingDefinition, need: u64, make: u64, mid: Stock) {
    && t'.food == t.food && t'.skipped == t.skipped && t'.active == (t.active + 1) % 0x1_0000_0000
    && t'.inputs - t.inputs == Total(t.stock) - Total(mid)
    && t'.outputs - t.outputs == Total(t'.stock) - Total(mid)
    && 0 <= t'.warnings - t.warnings <= |d.outputs|
    && t'.outputs - t.outputs == make * (|d.outputs| - (t'.warnings - t.warnings))
    && (make == 0 ==> t'.warnings == t.warnings)
  }

  lemma RunWorks(t: Tick, d: BuildingDefinition, need: u64, make: u64)
    requires need > 0 || make > 0
    requires !Short(t.stock, d.inputs, need)
    ensures Worked(t, Run(t, d, need, make), d, need, make, Consume(t.stock, d.inputs, need).stock)
  {
    var drawn := Consume(t.stock, d.inputs, need);
    HasWhatItNeeds(t.stock, d.inputs, need);
    ConsumeConserves(t.stock, d.inputs, need);
    ProduceConserves(drawn.stock, d.outputs, make);
    FailuresAreNotStored(drawn.stock, d.outputs, make);
    hide Consume, Produce, Total;
  }

  ghost predicate Flowed(before: Stock, after: Stock, d: BuildingDefinition, need: u64, make: u64, mid: Stock) {
    && (forall r :: Amount(mid, r) == Amount(before, r) - Drawn(before, d.inputs, need, r))
    && (forall r :: Amount(after, r) == Amount(mid, r) + Stored(mid, d.outputs, make, r))
  }

  lemma RunFlows(t: Tick, d: BuildingDefinition, need: u64, make: u64)
    requires need > 0 || make > 0
    requires !Short(t.stock, d.inputs, need)
    ensures Flowed(t.stock, Run(t, d, need, make).stock, d, need, make, Consume(t.stock, d.inputs, need).stock)
  {
    hide Amount, Drawn, Stored, Consume, Produce;
    var mid, after := Consume(t.stock, d.inputs, need).stock, Run(t, d, need, make).stock;
    HasWhatItNeeds(t.stock, d.inputs, need);
    forall r ensures Amount(mid, r) == Amount(t.stock, r) - Drawn(t.stock, d.inputs, need, r) {
      DrawnExactly(t.stock, d.inputs, need, r);
    }
    forall r ensures Amount(after, r) == Amount(mid, r) + Stored(mid, d.outputs, make, r) {
      StoredExactly(mid, d.outputs, make, r);
    }
  }

  lemma RunOutcome(t: Tick, d: BuildingDefinition, need: u64, make: u64)
    ensures need == 0 && make == 0 ==> Run(t, d, need, make) == t
    ensures (need > 0 || make > 0) && Short(t.stock, d.inputs, need) ==>
              Run(t, d, need, make) == t.(skipped := (t.skipped + 1) % 0x1_0000_0000, warnings := t.warnings + 1)
  {
    HasWhatItNeeds(t.stock, d.inputs, need);
  }

  lemma HasWhatItNeeds(stock: Stock, inputs: seq<string>, need: u64)
    ensures HasInputs(stock, inputs, need) <==> !Short(stock, inputs, need)
  {
    hide Amount;
    if !Short(stock, inputs, need) {
      forall i | 0 <= i < |inputs| ensures Amount(stock, inputs[i]) >= need { assert inputs[i] in inputs; }
    }
  }

  lemma BusyTurn(t: Tick, b: Building, registry: Registry, ticks: u64) returns (need: u64, make: u64, mid: Stock)
    requires b.definitionId in registry.buildings
    requires b.workers > 0 && registry.buildings[b.definitionId].workerSlots > 0
    ensures var d, t' := registry.buildings[b.definitionId], TickBuilding(t, b, registry, ticks);
      && TurnEarns(t, t', b.definitionId, if b.workers < d.workerSlots then b.workers else d.workerSlots,
                   ticks, need, make)
      && if need == 0 && make == 0 then t' == t.(remainders := t'.remainders)
         else if Short(t.stock, d.inputs, need) then
           t' == t.(remainders := t'.remainders, skipped := (t.skipped + 1) % 0x1_0000_0000, warnings := t.warnings + 1)
         else Worked(t, t', d, need, make, mid) && Flowed(t.stock, t'.stock, d, need, make, mid)
  {
    var d, t' := registry.buildings[b.definitionId], TickBuilding(t, b, registry, ticks);
    need, make := TurnCarries(t, b, registry, ticks);
    var begun := Accrue(t, b, d, ticks);
    assert t' == Run(begun, d, need, make);
    mid := Consume(t.stock, d.inputs, need).stock;
    hide TickBuilding, TurnEarns, Consume, Produce, Total, Required, Earned, Run, Flowed, Short, Scaled;
    RunOutcome(begun, d, need, make);
    if (need > 0 || make > 0) && !Short(t.stock, d.inputs, need) {
      RunWorks(begun, d, need, make);
      RunFlows(begun, d, need, make);
    }
  }
}
