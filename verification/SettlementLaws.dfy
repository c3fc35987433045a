// What settlement ticks conserve, whatever sequence of steps they are taken in.
module SettlementLaws {
  import opened U64
  import opened Storage
  import opened DataRegistry
  import opened Settlement

  // ---- accumulators over runs ----

  datatype Earnings = Earnings(whole: nat, carry: u64)

  function AccumulateAll(carry: u64, rate: u64, steps: seq<u64>): Earnings
    decreases |steps|
  {
    if steps == [] then Earnings(0, carry)
    else
      var first := Accumulate(carry, rate, steps[0]);
      var rest := AccumulateAll(first.carry, rate, steps[1..]);
      Earnings(first.whole + rest.whole, rest.carry)
  }

  // No step saturates, each taken on the carry it really starts from.
  predicate Unsaturated(carry: u64, rate: u64, steps: seq<u64>)
    decreases |steps|
  {
    steps != [] ==>
      && carry + rate * steps[0] <= U64_MAX
      && Unsaturated(Accumulate(carry, rate, steps[0]).carry, rate, steps[1..])
  }

  lemma AccumulateExact(carry: u64, rate: u64, ticks: u64)
    ensures var u := Accumulate(carry, rate, ticks);
      && TICKS_PER_DAY * u.whole + u.carry == Min(carry + rate * ticks, U64_MAX)
      && (carry < TICKS_PER_DAY ==> u.carry < TICKS_PER_DAY)
  {
    if rate == 0 || ticks == 0 {
      assert rate * ticks == 0;
    } else {
      MulMonotone(rate, 0, ticks);
      var n := SatAdd(carry, SatMul(rate, ticks));
      DivisionBounds(n, TICKS_PER_DAY);
    }
  }

  // Units and carry never exceed what was earned, however long the run; they account for all of it
  // if and only if no single step saturates.
  lemma {:induction false} AccumulatorsConserve(carry: u64, rate: u64, steps: seq<u64>)
    requires carry < TICKS_PER_DAY
    ensures var e := AccumulateAll(carry, rate, steps); var earned := carry + rate * Sum(steps);
      && TICKS_PER_DAY * e.whole + e.carry <= earned && e.carry < TICKS_PER_DAY
      && (TICKS_PER_DAY * e.whole + e.carry == earned <==> Unsaturated(carry, rate, steps))
    decreases |steps|
  {
    if steps == [] {
      assert rate * Sum(steps) == 0;
    } else {
      var t, rest := steps[0], Sum(steps[1..]);
      assert rate * Sum(steps) == rate * t + rate * rest;
      AccumulateExact(carry, rate, t);
      hide Accumulate;
      AccumulatorsConserve(Accumulate(carry, rate, t).carry, rate, steps[1..]);
    }
  }

  lemma QuotientUnique(a: nat, r: nat, b: nat, s: nat)
    requires r < TICKS_PER_DAY && s < TICKS_PER_DAY && TICKS_PER_DAY * a + r == TICKS_PER_DAY * b + s
    ensures a == b && r == s
  {
  }

  // Cut a stretch of time in two ways, the one without saturating: the same units are earned and the
  // same part carried if and only if the other does not saturate either.
  lemma PartitionInvariance(carry: u64, rate: u64, steps: seq<u64>, other: seq<u64>)
    requires carry < TICKS_PER_DAY && Sum(steps) == Sum(other) && Unsaturated(carry, rate, steps)
    ensures AccumulateAll(carry, rate, steps) == AccumulateAll(carry, rate, other) <==> Unsaturated(carry, rate, other)
  {
    hide Unsaturated;
    AccumulatorsConserve(carry, rate, steps);
    AccumulatorsConserve(carry, rate, other);
    var a, b := AccumulateAll(carry, rate, steps), AccumulateAll(carry, rate, other);
    if Unsaturated(carry, rate, other) {
      QuotientUnique(a.whole, a.carry, b.whole, b.carry);
    }
  }

  // With saturation in play, one cut is harmless exactly when the whole stretch does not saturate,
  // or the first part earns no unit, or one part is empty.
  lemma SplitExactly(carry: u64, rate: u64, t1: u64, t2: u64)
    requires carry < TICKS_PER_DAY && rate > 0 && t1 + t2 <= U64_MAX
    ensures AccumulateAll(carry, rate, [t1, t2]) == AccumulateAll(carry, rate, [t1 + t2])
            <==> carry + rate * (t1 + t2) <= U64_MAX || carry + rate * t1 < TICKS_PER_DAY || t2 == 0
  {
    var first := Accumulate(carry, rate, t1);
    var second := Accumulate(first.carry, rate, t2);
    var joint := Accumulate(carry, rate, t1 + t2);
    TwoSteps(carry, rate, t1, t2);
    assert rate * (t1 + t2) == rate * t1 + rate * t2;
    MulMonotone(rate, 0, t1);
    MulMonotone(rate, 0, t2);
    if t1 != 0 && t2 != 0 {
      MulMonotone(rate, 1, t1);
      MulMonotone(rate, 1, t2);
      var a := Min(carry + rate * t1, U64_MAX);
      assert SatAdd(carry, SatMul(rate, t1)) == a;
      var b := Min(first.carry + rate * t2, U64_MAX);
      assert SatAdd(first.carry, SatMul(rate, t2)) == b;
      var c := Min(carry + rate * (t1 + t2), U64_MAX);
      assert SatAdd(carry, SatMul(rate, t1 + t2)) == c;
      assert TICKS_PER_DAY * (first.whole + second.whole) + second.carry == a - first.carry + b;
      if a - first.carry + b == c {
        QuotientUnique(first.whole + second.whole, second.carry, joint.whole, joint.carry);
      }
    }
  }

  // Four units a day over 2^63 ticks, taken at once or in two halves: each half saturates on its own.
  lemma SaturatedHalvesEarnMore()
    ensures AccumulateAll(0, 4, [0x4000_0000_0000_0000, 0x4000_0000_0000_0000])
            != AccumulateAll(0, 4, [0x8000_0000_0000_0000])
  {
    hide AccumulateAll;
    SplitExactly(0, 4, 0x4000_0000_0000_0000, 0x4000_0000_0000_0000);
  }

  lemma TwoSteps(carry: u64, rate: u64, t1: u64, t2: u64)
    requires t1 + t2 <= U64_MAX
    ensures var first := Accumulate(carry, rate, t1); var second := Accumulate(first.carry, rate, t2);
            AccumulateAll(carry, rate, [t1, t2]) == Earnings(first.whole + second.whole, second.carry)
    ensures var joint := Accumulate(carry, rate, t1 + t2);
            AccumulateAll(carry, rate, [t1 + t2]) == Earnings(joint.whole, joint.carry)
  {
    assert [t1, t2][1..] == [t2] && [t2][1..] == [] && [t1 + t2][1..] == [];
    var first := Accumulate(carry, rate, t1);
    var second := Accumulate(first.carry, rate, t2);
    assert AccumulateAll(first.carry, rate, [t2]) == Earnings(second.whole, second.carry);
  }

  // ---- lockstep of inputs and outputs ----

  // Every definition has accrued exactly as much on its input side as on its output side.
  ghost predicate Lockstep(rs: seq<Remainder>) {
    forall id :: Carry(rs, InputKey(id)) == Carry(rs, OutputKey(id))
  }

  lemma KeysApart(a: string, b: string)
    ensures InputKey(a) != OutputKey(b) && InputKey(a) != FOOD_KEY && OutputKey(a) != FOOD_KEY
    ensures a != b ==> InputKey(a) != InputKey(b) && OutputKey(a) != OutputKey(b)
  {
    assert InputKey(a)[0] == 'i' && OutputKey(b)[0] == 'o' && FOOD_KEY[0] == 'f' && OutputKey(a)[0] == 'o';
    assert InputKey(a)[6..] == a && InputKey(b)[6..] == b && OutputKey(a)[7..] == a && OutputKey(b)[7..] == b;
  }

  lemma AccrueKeepsLockstep(t: Tick, b: Building, d: BuildingDefinition, ticks: u64)
    requires Lockstep(t.remainders)
    ensures Required(t, b, d, ticks) == Earned(t, b, d, ticks)
    ensures Lockstep(Accrue(t, b, d, ticks).remainders)
  {
    var rate, x := Workers(b, d), b.definitionId;
    var rs := Scaled(t.remainders, InputKey(x), rate, ticks);
    var rs' := Accrue(t, b, d, ticks).remainders;
    KeysApart(x, x);
    CarryAfterScaled(t.remainders, InputKey(x), rate, ticks, OutputKey(x));
    forall id ensures Carry(rs', InputKey(id)) == Carry(rs', OutputKey(id)) {
      KeysApart(id, x);
      KeysApart(x, id);
      CarryAfterScaled(t.remainders, InputKey(x), rate, ticks, InputKey(id));
      CarryAfterScaled(t.remainders, InputKey(x), rate, ticks, OutputKey(id));
      CarryAfterScaled(rs, OutputKey(x), rate, ticks, InputKey(id));
      CarryAfterScaled(rs, OutputKey(x), rate, ticks, OutputKey(id));
    }
  }

  lemma BuildingKeepsLockstep(t: Tick, b: Building, registry: Registry, ticks: u64)
    requires Lockstep(t.remainders)
    ensures Lockstep(TickBuilding(t, b, registry, ticks).remainders)
  {
    if b.definitionId in registry.buildings {
      AccrueKeepsLockstep(t, b, registry.buildings[b.definitionId], ticks);
      hide Lockstep, Accrue, Required, Earned, Consume, Produce, HasInputs;
    }
  }

  lemma {:induction false} BuildingsKeepLockstep(t: Tick, bs: seq<Building>, registry: Registry, ticks: u64)
    requires Lockstep(t.remainders)
    ensures Lockstep(TickBuildings(t, bs, registry, ticks).remainders)
    decreases |bs|
  {
    if bs != [] {
      BuildingKeepsLockstep(t, bs[0], registry, ticks);
      var next := TickBuilding(t, bs[0], registry, ticks);
      BuildingsKeepLockstep(next, bs[1..], registry, ticks);
    }
  }

  lemma FeedKeepsLockstep(s: Settlement, ticks: u64)
    requires Lockstep(s.remainders)
    ensures Lockstep(Feed(s, ticks).remainders)
  {
    var rs := Feed(s, ticks).remainders;
    forall id ensures Carry(rs, InputKey(id)) == Carry(rs, OutputKey(id)) {
      KeysApart(id, id);
      CarryAfterScaled(s.remainders, FOOD_KEY, FoodNeeded(s.population), ticks, InputKey(id));
      CarryAfterScaled(s.remainders, FOOD_KEY, FoodNeeded(s.population), ticks, OutputKey(id));
    }
  }

  lemma TickKeepsLockstep(s: Settlement, registry: Registry, ticks: u64)
    requires Lockstep(s.remainders)
    ensures Lockstep(TickSettlement(s, registry, ticks).remainders)
  {
    FeedKeepsLockstep(s, ticks);
    BuildingsKeepLockstep(Feed(s, ticks), s.buildings, registry, ticks);
  }

  // A run of ticks.
  function Ticked(s: Settlement, registry: Registry, steps: seq<u64>): Settlement
    decreases |steps|
  {
    if steps == [] then s
    else Ticked(AfterTick(s, TickSettlement(s, registry, steps[0])), registry, steps[1..])
  }

  // Over any steps the input and output carries of every definition stay equal.
  lemma {:induction false} RunKeepsCarriesEqual(s: Settlement, registry: Registry, steps: seq<u64>)
    requires Lockstep(s.remainders)
    ensures Lockstep(Ticked(s, registry, steps).remainders)
    ensures Ticked(s, registry, steps).buildings == s.buildings
    decreases |steps|
  {
    hide Lockstep;
    if steps != [] {
      TickKeepsLockstep(s, registry, steps[0]);
      RunKeepsCarriesEqual(AfterTick(s, TickSettlement(s, registry, steps[0])), registry, steps[1..]);
    }
  }

  // The tick when building k has its turn.
  function Turn(s: Settlement, registry: Registry, ticks: u64, k: nat): Tick
    requires k <= |s.buildings|
  {
    TickBuildings(Feed(s, ticks), s.buildings[..k], registry, ticks)
  }

  lemma {:induction false} BuildingsInTurn(t: Tick, bs: seq<Building>, cs: seq<Building>, registry: Registry,
                                           ticks: u64)
    ensures TickBuildings(t, bs + cs, registry, ticks)
            == TickBuildings(TickBuildings(t, bs, registry, ticks), cs, registry, ticks)
    decreases |bs|
  {
    hide TickBuilding;
    if bs == [] {
      assert bs + cs == cs;
    } else {
      assert (bs + cs)[1..] == bs[1..] + cs;
      BuildingsInTurn(TickBuilding(t, bs[0], registry, ticks), bs[1..], cs, registry, ticks);
    }
  }

  // A tick is its buildings' turns, one after the other.
  lemma TurnsMakeATick(s: Settlement, registry: Registry, ticks: u64, k: nat)
    requires k < |s.buildings|
    ensures Turn(s, registry, ticks, 0) == Feed(s, ticks)
    ensures Turn(s, registry, ticks, k + 1)
            == TickBuilding(Turn(s, registry, ticks, k), s.buildings[k], registry, ticks)
    ensures Turn(s, registry, ticks, |s.buildings|) == TickSettlement(s, registry, ticks)
  {
    hide TickBuilding, Feed;
    var one := [s.buildings[k]];
    assert s.buildings[..k + 1] == s.buildings[..k] + one;
    BuildingsInTurn(Feed(s, ticks), s.buildings[..k], one, registry, ticks);
    assert one[1..] == [];
    assert s.buildings[..|s.buildings|] == s.buildings;
  }

  // From a settlement with nothing carried over, what a building needs of each input is, at its turn
  // in any tick of any run, what it makes of each output, however many instances share the accumulators.
  lemma RequiredIsEarned(s: Settlement, registry: Registry, steps: seq<u64>, ticks: u64, k: nat)
    requires Lockstep(s.remainders) && k < |s.buildings| && s.buildings[k].definitionId in registry.buildings
    ensures var now := Ticked(s, registry, steps); var b := s.buildings[k]; var d := registry.buildings[b.definitionId];
      && now.buildings == s.buildings
      && Required(Turn(now, registry, ticks, k), b, d, ticks) == Earned(Turn(now, registry, ticks, k), b, d, ticks)
  {
    hide Lockstep, Required, Earned, TickBuildings, Feed;
    RunKeepsCarriesEqual(s, registry, steps);
    var now, b := Ticked(s, registry, steps), s.buildings[k];
    FeedKeepsLockstep(now, ticks);
    BuildingsKeepLockstep(Feed(now, ticks), now.buildings[..k], registry, ticks);
    AccrueKeepsLockstep(Turn(now, registry, ticks, k), b, registry.buildings[b.definitionId], ticks);
  }

  lemma NewSettlementsAreInLockstep()
    ensures Lockstep([])
  {
  }

  // ---- conservation of goods ----

  lemma {:induction false} ConsumeConserves(stock: Stock, inputs: seq<string>, required: u64)
    ensures var f := Consume(stock, inputs, required); Total(f.stock) + f.moved == Total(stock)
    decreases |inputs|
  {
    if inputs != [] {
      TotalAfter(stock, inputs[0], required);
      if CanRemove(stock, inputs[0], required) {
        ConsumeConserves(Removed(stock, inputs[0], required), inputs[1..], required);
      } else {
        ConsumeConserves(stock, inputs[1..], required);
      }
    }
  }

  lemma {:induction false} ProduceConserves(stock: Stock, outputs: seq<string>, produced: u64)
    ensures var f := Produce(stock, outputs, produced); Total(f.stock) == Total(stock) + f.moved
    decreases |outputs|
  {
    if outputs != [] && produced != 0 {
      TotalAfter(stock, outputs[0], produced);
      if CanAdd(stock, outputs[0], produced) {
        ProduceConserves(Added(stock, outputs[0], produced), outputs[1..], produced);
      } else {
        ProduceConserves(stock, outputs[1..], produced);
      }
    }
  }

  // Stock left, plus what was eaten and used up, less what was made.
  ghost function Balance(t: Tick): int { Total(t.stock) + t.food + t.inputs - t.outputs }

  lemma BuildingConserves(t: Tick, b: Building, registry: Registry, ticks: u64)
    ensures Balance(TickBuilding(t, b, registry, ticks)) == Balance(t)
  {
    if b.definitionId in registry.buildings {
      var d := registry.buildings[b.definitionId];
      var required, earned := Required(t, b, d, ticks), Earned(t, b, d, ticks);
      ConsumeConserves(t.stock, d.inputs, required);
      ProduceConserves(Consume(t.stock, d.inputs, required).stock, d.outputs, earned);
    }
  }

  lemma {:induction false} BuildingsConserve(t: Tick, bs: seq<Building>, registry: Registry, ticks: u64)
    ensures Balance(TickBuildings(t, bs, registry, ticks)) == Balance(t)
    decreases |bs|
  {
    if bs != [] {
      BuildingConserves(t, bs[0], registry, ticks);
      BuildingsConserve(TickBuilding(t, bs[0], registry, ticks), bs[1..], registry, ticks);
    }
  }

  // A tick only ever eats, uses up and makes what its counters say.
  lemma TickConserves(s: Settlement, registry: Registry, ticks: u64)
    ensures var t := TickSettlement(s, registry, ticks);
            Total(t.stock) + t.food + t.inputs == Total(s.storage) + t.outputs
  {
    TotalAfter(s.storage, FOOD, Accumulate(Carry(s.remainders, FOOD_KEY), FoodNeeded(s.population), ticks).whole);
    BuildingsConserve(Feed(s, ticks), s.buildings, registry, ticks);
  }

  // The books a report shows balance exactly when its two saturating counters agree on what they cut off.
  lemma ReportBalancesExactly(s: Settlement, registry: Registry, ticks: u64)
    ensures var t := TickSettlement(s, registry, ticks); var r := Report(s, ticks, t);
            (Total(t.stock) + r.consumedFood + r.consumedInputs == Total(s.storage) + r.producedResources
             <==> Max(t.inputs, U64_MAX) == Max(t.outputs, U64_MAX))
            && (t.inputs <= U64_MAX && t.outputs <= U64_MAX ==>
                r.consumedInputs == t.inputs && r.producedResources == t.outputs)
  {
    TickConserves(s, registry, ticks);
  }

  // ---- what an active building draws ----

  function Count(ids: seq<string>, r: string): nat { multiset(ids)[r] }

  lemma CountCons(ids: seq<string>, r: string)
    requires ids != []
    ensures Count(ids, r) == Count(ids[1..], r) + if ids[0] == r then 1 else 0
  {
    assert ids == [ids[0]] + ids[1..];
  }

  predicate CoversOne(stock: Stock, inputs: seq<string>, required: u64, r: string) {
    Count(inputs, r) * required <= Amount(stock, r)
  }

  // The stock covers every mention of every input.
  ghost predicate Covers(stock: Stock, inputs: seq<string>, required: u64) {
    forall r :: CoversOne(stock, inputs, required, r)
  }

  lemma CoversOneStep(stock: Stock, inputs: seq<string>, required: u64, r: string)
    requires inputs != [] && CanRemove(stock, inputs[0], required)
    ensures CoversOne(stock, inputs, required, r)
            <==> CoversOne(Removed(stock, inputs[0], required), inputs[1..], required, r)
  {
    CountCons(inputs, r);
    AmountAfter(stock, inputs[0], required, r);
    var n := Count(inputs[1..], r);
    assert (n + 1) * required == n * required + required;
  }

  lemma CoversStep(stock: Stock, inputs: seq<string>, required: u64)
    requires inputs != [] && required > 0
    ensures Covers(stock, inputs, required) <==>
            CanRemove(stock, inputs[0], required) && Covers(Removed(stock, inputs[0], required), inputs[1..], required)
  {
    if CanRemove(stock, inputs[0], required) {
      forall r {
        CoversOneStep(stock, inputs, required, r);
      }
    } else {
      CountCons(inputs, inputs[0]);
      MulMonotone(required, 1, Count(inputs, inputs[0]));
      assert !CoversOne(stock, inputs, required, inputs[0]);
    }
  }

  // A building draws its full requirement from every listed input exactly when the stock covers
  // repeated mentions; the readiness check looks at each mention on its own.
  lemma {:induction false} DrawsInFullExactly(stock: Stock, inputs: seq<string>, required: u64)
    requires required > 0
    ensures Consume(stock, inputs, required).moved <= |inputs| * required
    ensures Consume(stock, inputs, required).moved == |inputs| * required <==> Covers(stock, inputs, required)
    decreases |inputs|
  {
    if inputs != [] {
      var n := |inputs| - 1;
      assert |inputs| * required == n * required + required;
      CoversStep(stock, inputs, required);
      if CanRemove(stock, inputs[0], required) {
        DrawsInFullExactly(Removed(stock, inputs[0], required), inputs[1..], required);
      } else {
        DrawsInFullExactly(stock, inputs[1..], required);
      }
    } else {
      assert |inputs| * required == 0;
    }
  }

  // With distinct inputs the readiness check is enough.
  lemma DistinctInputsDrawInFull(stock: Stock, inputs: seq<string>, required: u64)
    requires required > 0 && HasInputs(stock, inputs, required)
    requires forall i, j :: 0 <= i < j < |inputs| ==> inputs[i] != inputs[j]
    ensures Consume(stock, inputs, required).moved == |inputs| * required
  {
    DrawsInFullExactly(stock, inputs, required);
    forall r ensures CoversOne(stock, inputs, required, r) {
      DistinctCount(inputs, r);
      if r in inputs {
        var i :| 0 <= i < |inputs| && inputs[i] == r;
        MulMonotone(required, Count(inputs, r), 1);
      } else {
        assert Count(inputs, r) == 0 && 0 * required == 0;
      }
    }
  }

  lemma {:induction false} DistinctCount(ids: seq<string>, r: string)
    requires forall i, j :: 0 <= i < j < |ids| ==> ids[i] != ids[j]
    ensures Count(ids, r) <= 1
  {
    if ids != [] {
      CountCons(ids, r);
      DistinctCount(ids[1..], r);
      if ids[0] == r { assert r !in ids[1..]; }
    }
  }

  // One log, an input listed twice: the building is declared ready, runs, and draws only one log.
  lemma RepeatedInputIsUnderdrawn()
    ensures var stock: Stock := map["wood" := 1];
            HasInputs(stock, ["wood", "wood"], 1) && Consume(stock, ["wood", "wood"], 1).moved < 2
  {
    var stock: Stock := map["wood" := 1];
    var inputs := ["wood", "wood"];
    DrawsInFullExactly(stock, inputs, 1);
    assert !CoversOne(stock, inputs, 1, "wood");
  }

  // A skipped building takes nothing.
  lemma SkippedTakesNothing(t: Tick, b: Building, registry: Registry, ticks: u64)
    ensures var t' := TickBuilding(t, b, registry, ticks);
            t'.skipped != t.skipped ==> t'.stock == t.stock && t'.inputs == t.inputs && t'.outputs == t.outputs
  {
  }
}
