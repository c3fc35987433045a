// Resource by resource: what buildings draw and store, what a tick therefore does to each stock,
// and which settlements' reports always balance.
module SettlementFlows {
  import opened U64
  import opened Text
  import opened Storage
  import opened DataRegistry
  import opened Settlement
  import opened SettlementLaws

  // ---- one resource, one building ----

  // How often a requirement is met: once per mention, as long as the stock lasts.
  function Drawn(stock: Stock, inputs: seq<string>, required: u64, r: string): nat {
    if required == 0 then 0 else required * Min(Count(inputs, r), Div(Amount(stock, r), required))
  }

  // How often a product is stored: once per mention, as long as it fits.
  function Stored(stock: Stock, outputs: seq<string>, produced: u64, r: string): nat {
    if produced == 0 || r == [] then 0 else produced * Min(Count(outputs, r), Div(U64_MAX - Amount(stock, r), produced))
  }

  lemma OneLessFits(a: u64, q: u64)
    requires 0 < q <= a
    ensures Div(a, q) == Div(a - q, q) + 1
  {
    var k, m := Div(a - q, q), Div(a, q);
    assert (k + 1) * q == k * q + q;
    hide Div;
    QuotientIsUnique(a, q, m, k + 1);
  }

  lemma NoneFits(a: u64, q: u64)
    requires a < q
    ensures Div(a, q) == 0
  {
    if Div(a, q) > 0 { MulMonotone(q, 1, Div(a, q)); }
  }

  lemma {:induction false} DrawnExactly(stock: Stock, inputs: seq<string>, required: u64, r: string)
    ensures Amount(Consume(stock, inputs, required).stock, r) + Drawn(stock, inputs, required, r) == Amount(stock, r)
    decreases |inputs|
  {
    if inputs == [] {
      assert required * 0 == 0;
    } else if CanRemove(stock, inputs[0], required) {
      var after := Removed(stock, inputs[0], required);
      AmountAfter(stock, inputs[0], required, r);
      CountCons(inputs, r);
      DrawnExactly(after, inputs[1..], required, r);
      if inputs[0] == r {
        OneLessFits(Amount(stock, r), required);
        MulSuccessor(required, Min(Count(inputs[1..], r), Div(Amount(after, r), required)));
      }
    } else {
      CountCons(inputs, r);
      DrawnExactly(stock, inputs[1..], required, r);
      if inputs[0] == r && required > 0 { NoneFits(Amount(stock, r), required); }
    }
  }

  lemma {:induction false} StoredExactly(stock: Stock, outputs: seq<string>, produced: u64, r: string)
    ensures Amount(Produce(stock, outputs, produced).stock, r) == Amount(stock, r) + Stored(stock, outputs, produced, r)
    decreases |outputs|
  {
    if produced == 0 {
    } else if outputs == [] {
      assert produced * 0 == 0;
    } else if CanAdd(stock, outputs[0], produced) {
      var after := Added(stock, outputs[0], produced);
      AmountAfter(stock, outputs[0], produced, r);
      CountCons(outputs, r);
      StoredExactly(after, outputs[1..], produced, r);
      if outputs[0] == r {
        OneLessFits(U64_MAX - Amount(stock, r), produced);
        MulSuccessor(produced, Min(Count(outputs[1..], r), Div(U64_MAX - Amount(after, r), produced)));
      }
    } else {
      CountCons(outputs, r);
      StoredExactly(stock, outputs[1..], produced, r);
      if outputs[0] == r && r != [] { NoneFits(U64_MAX - Amount(stock, r), produced); }
    }
  }

  // ---- one resource, one tick ----

  // Whether a building gets to draw and make anything.
  predicate Works(t: Tick, b: Building, registry: Registry, ticks: u64) {
    && b.definitionId in registry.buildings
    && var d := registry.buildings[b.definitionId];
      Workers(b, d) > 0 && HasInputs(t.stock, d.inputs, Required(t, b, d, ticks))
  }

  function Used(t: Tick, b: Building, registry: Registry, ticks: u64, r: string): nat {
    if !Works(t, b, registry, ticks) then 0
    else var d := registry.buildings[b.definitionId]; Drawn(t.stock, d.inputs, Required(t, b, d, ticks), r)
  }

  // Products are stored after the inputs have been drawn.
  function Made(t: Tick, b: Building, registry: Registry, ticks: u64, r: string): nat {
    if !Works(t, b, registry, ticks) then 0
    else
      var d := registry.buildings[b.definitionId];
      Stored(Consume(t.stock, d.inputs, Required(t, b, d, ticks)).stock, d.outputs, Earned(t, b, d, ticks), r)
  }

  lemma BuildingBalances(t: Tick, b: Building, registry: Registry, ticks: u64, r: string)
    ensures Amount(TickBuilding(t, b, registry, ticks).stock, r) + Used(t, b, registry, ticks, r)
            == Amount(t.stock, r) + Made(t, b, registry, ticks, r)
  {
    if Works(t, b, registry, ticks) {
      var d := registry.buildings[b.definitionId];
      var required, earned := Required(t, b, d, ticks), Earned(t, b, d, ticks);
      hide Required, Earned, Accumulate;
      DrawnExactly(t.stock, d.inputs, required, r);
      StoredExactly(Consume(t.stock, d.inputs, required).stock, d.outputs, earned, r);
      hide Drawn, Stored, Consume, Produce;
    }
  }

  function UsedByAll(t: Tick, bs: seq<Building>, registry: Registry, ticks: u64, r: string): nat
    decreases |bs|
  {
    if bs == [] then 0
    else
      Used(t, bs[0], registry, ticks, r)
      + UsedByAll(TickBuilding(t, bs[0], registry, ticks), bs[1..], registry, ticks, r)
  }

  function MadeByAll(t: Tick, bs: seq<Building>, registry: Registry, ticks: u64, r: string): nat
    decreases |bs|
  {
    if bs == [] then 0
    else
      Made(t, bs[0], registry, ticks, r)
      + MadeByAll(TickBuilding(t, bs[0], registry, ticks), bs[1..], registry, ticks, r)
  }

  lemma {:induction false} BuildingsBalance(t: Tick, bs: seq<Building>, registry: Registry, ticks: u64, r: string)
    ensures Amount(TickBuildings(t, bs, registry, ticks).stock, r) + UsedByAll(t, bs, registry, ticks, r)
            == Amount(t.stock, r) + MadeByAll(t, bs, registry, ticks, r)
    decreases |bs|
  {
    hide TickBuilding, Used, Made;
    if bs != [] {
      BuildingBalances(t, bs[0], registry, ticks, r);
      BuildingsBalance(TickBuilding(t, bs[0], registry, ticks), bs[1..], registry, ticks, r);
    }
  }

  function Eaten(s: Settlement, ticks: u64, r: string): nat {
    if r == FOOD then Feed(s, ticks).food else 0
  }

  // Of each resource a tick leaves what there was, less what is eaten and used, plus what is made.
  lemma TickBalances(s: Settlement, registry: Registry, ticks: u64, r: string)
    ensures var fed := Feed(s, ticks);
      Amount(TickSettlement(s, registry, ticks).stock, r) + Eaten(s, ticks, r)
      + UsedByAll(fed, s.buildings, registry, ticks, r)
      == Amount(s.storage, r) + MadeByAll(fed, s.buildings, registry, ticks, r)
  {
    AmountAfter(s.storage, FOOD, Accumulate(Carry(s.remainders, FOOD_KEY), FoodNeeded(s.population), ticks).whole, r);
    BuildingsBalance(Feed(s, ticks), s.buildings, registry, ticks, r);
  }

  // ---- reports that always balance ----

  // No accumulator ever yields more at once.
  const MOST: u64 := U64_MAX / TICKS_PER_DAY

  lemma EarningsBounded(carry: u64, rate: u64, ticks: u64)
    ensures Accumulate(carry, rate, ticks).whole <= MOST
  {
    AccumulateExact(carry, rate, ticks);
    var w := Accumulate(carry, rate, ticks).whole;
    QuotientBound(U64_MAX, TICKS_PER_DAY, MOST, w);
  }

  function InputMentions(bs: seq<Building>, registry: Registry): nat {
    if bs == [] then 0
    else (if bs[0].definitionId in registry.buildings then |registry.buildings[bs[0].definitionId].inputs| else 0)
         + InputMentions(bs[1..], registry)
  }

  function OutputMentions(bs: seq<Building>, registry: Registry): nat {
    if bs == [] then 0
    else (if bs[0].definitionId in registry.buildings then |registry.buildings[bs[0].definitionId].outputs| else 0)
         + OutputMentions(bs[1..], registry)
  }

  lemma {:induction false} ConsumeBounded(stock: Stock, inputs: seq<string>, required: u64)
    ensures Consume(stock, inputs, required).moved <= required * |inputs|
    decreases |inputs|
  {
    if inputs == [] {
      assert required * 0 == 0;
    } else {
      MulSuccessor(required, |inputs| - 1);
      if CanRemove(stock, inputs[0], required) {
        ConsumeBounded(Removed(stock, inputs[0], required), inputs[1..], required);
      } else {
        ConsumeBounded(stock, inputs[1..], required);
      }
    }
  }

  lemma {:induction false} ProduceBounded(stock: Stock, outputs: seq<string>, produced: u64)
    ensures Produce(stock, outputs, produced).moved <= produced * |outputs|
    decreases |outputs|
  {
    if outputs == [] || produced == 0 {
      MulMonotone(produced, 0, |outputs|);
    } else {
      MulSuccessor(produced, |outputs| - 1);
      if CanAdd(stock, outputs[0], produced) {
        ProduceBounded(Added(stock, outputs[0], produced), outputs[1..], produced);
      } else {
        ProduceBounded(stock, outputs[1..], produced);
      }
    }
  }

  lemma BuildingBounded(t: Tick, b: Building, registry: Registry, ticks: u64)
    ensures var t' := TickBuilding(t, b, registry, ticks);
      if b.definitionId in registry.buildings then
        var d := registry.buildings[b.definitionId];
        t'.inputs <= t.inputs + MOST * |d.inputs| && t'.outputs <= t.outputs + MOST * |d.outputs|
      else t'.inputs == t.inputs && t'.outputs == t.outputs
  {
    if b.definitionId in registry.buildings {
      var d := registry.buildings[b.definitionId];
      var required, earned := Required(t, b, d, ticks), Earned(t, b, d, ticks);
      EarningsBounded(Carry(t.remainders, InputKey(b.definitionId)), Workers(b, d), ticks);
      var rs := Scaled(t.remainders, InputKey(b.definitionId), Workers(b, d), ticks);
      EarningsBounded(Carry(rs, OutputKey(b.definitionId)), Workers(b, d), ticks);
      ConsumeBounded(t.stock, d.inputs, required);
      ProduceBounded(Consume(t.stock, d.inputs, required).stock, d.outputs, earned);
      MulMonotone(|d.inputs|, required, MOST);
      MulMonotone(|d.outputs|, earned, MOST);
      MulMonotone(MOST, 0, |d.inputs|);
      MulMonotone(MOST, 0, |d.outputs|);
    }
  }

  lemma {:induction false} BuildingsBounded(t: Tick, bs: seq<Building>, registry: Registry, ticks: u64)
    ensures var t' := TickBuildings(t, bs, registry, ticks);
      && t'.inputs <= t.inputs + MOST * InputMentions(bs, registry)
      && t'.outputs <= t.outputs + MOST * OutputMentions(bs, registry)
    decreases |bs|
  {
    hide TickBuilding;
    if bs == [] {
      assert MOST * 0 == 0;
    } else {
      BuildingBounded(t, bs[0], registry, ticks);
      BuildingsBounded(TickBuilding(t, bs[0], registry, ticks), bs[1..], registry, ticks);
      var m, n := InputMentions(bs[1..], registry), OutputMentions(bs[1..], registry);
      if bs[0].definitionId in registry.buildings {
        var d := registry.buildings[bs[0].definitionId];
        assert MOST * (|d.inputs| + m) == MOST * |d.inputs| + MOST * m;
        assert MOST * (|d.outputs| + n) == MOST * |d.outputs| + MOST * n;
      }
    }
  }

  // A settlement whose buildings mention at most 86400 inputs and 86400 outputs in all never fills
  // a report's counters: whatever its stock and carries, and however long the tick, its books balance.
  lemma SmallSettlementsBalance(s: Settlement, registry: Registry, ticks: u64)
    requires InputMentions(s.buildings, registry) <= TICKS_PER_DAY
    requires OutputMentions(s.buildings, registry) <= TICKS_PER_DAY
    ensures var t := TickSettlement(s, registry, ticks); var r := Report(s, ticks, t);
      && r.consumedInputs == t.inputs && r.producedResources == t.outputs
      && Total(t.stock) + r.consumedFood + r.consumedInputs == Total(s.storage) + r.producedResources
  {
    BuildingsBounded(Feed(s, ticks), s.buildings, registry, ticks);
    MulMonotone(MOST, InputMentions(s.buildings, registry), TICKS_PER_DAY);
    MulMonotone(MOST, OutputMentions(s.buildings, registry), TICKS_PER_DAY);
    DivisionBounds(U64_MAX, TICKS_PER_DAY);
    TickConserves(s, registry, ticks);
  }

  // What fits is stored: distinct new products all go in.
  lemma {:induction false} NewProductsAllFit(stock: Stock, outputs: seq<string>, produced: u64)
    requires forall i :: 0 <= i < |outputs| ==> outputs[i] != [] && outputs[i] !in stock
    requires forall i, j :: 0 <= i < j < |outputs| ==> outputs[i] != outputs[j]
    ensures Produce(stock, outputs, produced).moved == produced * |outputs|
    decreases |outputs|
  {
    if outputs == [] || produced == 0 {
      assert produced * |outputs| == 0;
    } else {
      MulSuccessor(produced, |outputs| - 1);
      NewProductsAllFit(Added(stock, outputs[0], produced), outputs[1..], produced);
    }
  }

  const MILL := "mill"

  function MillOf(inputs: seq<string>, outputs: seq<string>): Registry {
    Registry(map[], {}, map[MILL := BuildingDefinition("", 1, "", inputs, outputs)], map[])
  }

  // Nobody lives here; one worker comes to the mill.
  function Hamlet(stock: Stock): Settlement { Settlement("hamlet", "", 0, stock, [Building(MILL, 1)], []) }

  function BareTick(stock: Stock): Tick { Tick(stock, [], 0, 0, 0, 0, 0, 0) }

  lemma MillNeeds(stock: Stock, inputs: seq<string>, outputs: seq<string>)
    ensures var b := Building(MILL, 1); var d := MillOf(inputs, outputs).buildings[MILL];
      Required(BareTick(stock), b, d, U64_MAX) == MOST && Earned(BareTick(stock), b, d, U64_MAX) == MOST
  {
    NewSettlementsAreInLockstep();
    AccrueKeepsLockstep(BareTick(stock), Building(MILL, 1), MillOf(inputs, outputs).buildings[MILL], U64_MAX);
    assert SatAdd(0, SatMul(1, U64_MAX)) == U64_MAX;
  }

  lemma NobodyEats(stock: Stock, ticks: u64)
    ensures Feed(Hamlet(stock), ticks) == BareTick(stock)
  {
  }

  lemma Runs(t: Tick, d: BuildingDefinition, n: u64)
    requires HasInputs(t.stock, d.inputs, n) && n > 0
    ensures var t', drawn := Run(t, d, n, n), Consume(t.stock, d.inputs, n);
      t'.inputs == t.inputs + drawn.moved && t'.outputs == t.outputs + Produce(drawn.stock, d.outputs, n).moved
  {
    hide Produce, Consume, HasInputs;
  }

  lemma OnlyBuilding(t: Tick, b: Building, registry: Registry, ticks: u64)
    ensures TickBuildings(t, [b], registry, ticks) == TickBuilding(t, b, registry, ticks)
  {
    hide TickBuilding;
    assert [b][1..] == [];
  }

  lemma MillTick(stock: Stock, inputs: seq<string>, outputs: seq<string>)
    requires HasInputs(stock, inputs, MOST)
    ensures var t := TickSettlement(Hamlet(stock), MillOf(inputs, outputs), U64_MAX);
      var drawn := Consume(stock, inputs, MOST);
      t.inputs == drawn.moved && t.outputs == Produce(drawn.stock, outputs, MOST).moved
  {
    hide Feed, Required, Earned, Produce, Consume, HasInputs, Run, Scaled;
    var registry, b := MillOf(inputs, outputs), Building(MILL, 1);
    var d := registry.buildings[MILL];
    NobodyEats(stock, U64_MAX);
    MillNeeds(stock, inputs, outputs);
    OnlyBuilding(BareTick(stock), b, registry, U64_MAX);
    assert Hamlet(stock).buildings == [b];
    assert Workers(b, d) == 1;
    Runs(Accrue(BareTick(stock), b, d, U64_MAX), d, MOST);
  }

  lemma MillMentions(stock: Stock, inputs: seq<string>, outputs: seq<string>)
    ensures InputMentions(Hamlet(stock).buildings, MillOf(inputs, outputs)) == |inputs|
    ensures OutputMentions(Hamlet(stock).buildings, MillOf(inputs, outputs)) == |outputs|
  {
    assert [Building(MILL, 1)][1..] == [];
  }

  // As many different names as one likes.
  function Names(n: nat): (names: seq<string>)
    ensures |names| == n && forall i :: 0 <= i < n ==> names[i] == Dec(i) && names[i] != []
  {
    seq(n, i requires 0 <= i < n => Dec(i))
  }

  lemma NamesDiffer(n: nat)
    ensures forall i, j :: 0 <= i < j < n ==> Names(n)[i] != Names(n)[j]
  {
    hide Dec, Value;
    forall i, j | 0 <= i < j < n ensures Names(n)[i] != Names(n)[j] {
      assert Value(Dec(i)) == i && Value(Dec(j)) == j;
    }
  }

  ghost predicate Balances(s: Settlement, registry: Registry, ticks: u64) {
    var t := TickSettlement(s, registry, ticks);
    var r := Report(s, ticks, t);
    Total(t.stock) + r.consumedFood + r.consumedInputs == Total(s.storage) + r.producedResources
  }

  const TOO_MANY: nat := TICKS_PER_DAY + 1

  lemma NothingDrawn(required: u64)
    ensures Consume(map[], [], required) == Flow(map[], 0, 0)
  {
  }

  // One product too many: a long enough tick leaves a report that does not balance.
  lemma OneMoreProductUnbalances()
    ensures !Balances(Hamlet(map[]), MillOf([], Names(TOO_MANY)), U64_MAX)
  {
    var outputs := Names(TOO_MANY);
    NamesDiffer(TOO_MANY);
    hide TickSettlement, Consume, Produce, Names;
    assert HasInputs(map[], [], MOST);
    MillTick(map[], [], outputs);
    NothingDrawn(MOST);
    NewProductsAllFit(map[], outputs, MOST);
    assert MOST * TOO_MANY > U64_MAX;
    ReportBalancesExactly(Hamlet(map[]), MillOf([], outputs), U64_MAX);
  }

  function Plenty(names: seq<string>): Stock { map r | r in names :: U64_MAX }

  lemma PlentyForAll(names: seq<string>)
    ensures HasInputs(Plenty(names), names, MOST)
  {
  }

  lemma NothingMade(stock: Stock)
    ensures Produce(stock, [], MOST) == Flow(stock, 0, 0)
  {
  }

  // And so does one input too many.
  lemma OneMoreInputUnbalances()
    ensures !Balances(Hamlet(Plenty(Names(TOO_MANY))), MillOf(Names(TOO_MANY), []), U64_MAX)
  {
    var inputs := Names(TOO_MANY);
    NamesDiffer(TOO_MANY);
    PlentyForAll(inputs);
    hide TickSettlement, Consume, Produce, HasInputs, Total, Names, Plenty;
    MillTick(Plenty(inputs), inputs, []);
    DistinctInputsDrawInFull(Plenty(inputs), inputs, MOST);
    NothingMade(Consume(Plenty(inputs), inputs, MOST).stock);
    assert TOO_MANY * MOST > U64_MAX;
    ReportBalancesExactly(Hamlet(Plenty(inputs)), MillOf(inputs, []), U64_MAX);
  }

  lemma SmallIsBalanced(s: Settlement, registry: Registry, ticks: u64)
    requires InputMentions(s.buildings, registry) <= TICKS_PER_DAY
    requires OutputMentions(s.buildings, registry) <= TICKS_PER_DAY
    ensures Balances(s, registry, ticks)
  {
    hide TickSettlement, Report, InputMentions, OutputMentions;
    SmallSettlementsBalance(s, registry, ticks);
  }

  // Every settlement whose buildings keep to these numbers of mentions has a report that balances, on
  // every tick, if and only if neither number exceeds 86400.
  lemma BooksBalanceExactly(m: nat, n: nat)
    ensures (forall s: Settlement, registry: Registry, ticks: u64 ::
              InputMentions(s.buildings, registry) <= m && OutputMentions(s.buildings, registry) <= n
              ==> Balances(s, registry, ticks))
            <==> m <= TICKS_PER_DAY && n <= TICKS_PER_DAY
  {
    hide InputMentions, OutputMentions, Balances;
    if m <= TICKS_PER_DAY && n <= TICKS_PER_DAY {
      forall s: Settlement, registry: Registry, ticks: u64
        | InputMentions(s.buildings, registry) <= m && OutputMentions(s.buildings, registry) <= n
        ensures Balances(s, registry, ticks)
      {
        SmallIsBalanced(s, registry, ticks);
      }
    } else if n > TICKS_PER_DAY {
      OneMoreProductUnbalances();
      MillMentions(map[], [], Names(TOO_MANY));
    } else {
      OneMoreInputUnbalances();
      MillMentions(Plenty(Names(TOO_MANY)), Names(TOO_MANY), []);
    }
  }
}
