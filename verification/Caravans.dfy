// Caravans: motion in ticks, validity, and loading and unloading goods.
module Caravans {
  import opened U64
  import opened Storage
  import opened Settlement

  // A caravan as a value.
  datatype Caravan = Caravan(
    id: string, displayName: string, routeId: string, origin: string, destination: string,
    totalDays: u64, daysRemaining: u64, totalTicks: u64, ticksRemaining: u64, cargo: Stock)

  // A zero tick count defers to the day count.
  function TotalTicks(c: Caravan): u64 {
    if c.totalTicks > 0 then c.totalTicks else DaysToTicks(c.totalDays)
  }

  function TicksRemaining(c: Caravan): u64 {
    if c.ticksRemaining > 0 || c.daysRemaining == 0 then c.ticksRemaining else DaysToTicks(c.daysRemaining)
  }

  predicate Arrived(c: Caravan) { TicksRemaining(c) == 0 }

  predicate Valid(c: Caravan) {
    && c.id != [] && c.displayName != [] && c.routeId != [] && c.origin != [] && c.destination != []
    && c.origin != c.destination
    && TotalTicks(c) > 0 && TicksRemaining(c) <= TotalTicks(c)
    && (c.totalDays > 0 && c.totalTicks > 0 ==> c.totalTicks == DaysToTicks(c.totalDays))
    && (c.daysRemaining > 0 && c.ticksRemaining > 0 ==> c.ticksRemaining == DaysToTicks(c.daysRemaining))
  }

  // The number of errors reported for a caravan.
  function ValidateCaravan(c: Caravan): (errors: nat)
    ensures errors == 0 <==> Valid(c)
  {
    (if c.id == [] then 1 else 0) + (if c.displayName == [] then 1 else 0) + (if c.routeId == [] then 1 else 0)
    + (if c.origin == [] then 1 else 0) + (if c.destination == [] then 1 else 0)
    + (if c.origin != [] && c.destination != [] && c.origin == c.destination then 1 else 0)
    + (if TotalTicks(c) == 0 then 1 else 0) + (if TicksRemaining(c) > TotalTicks(c) then 1 else 0)
    + (if c.totalDays > 0 && c.totalTicks > 0 && c.totalTicks != DaysToTicks(c.totalDays) then 1 else 0)
    + (if c.daysRemaining > 0 && c.ticksRemaining > 0 && c.ticksRemaining != DaysToTicks(c.daysRemaining) then 1 else 0)
  }

  datatype AdvanceReport = AdvanceReport(
    daysBefore: u64, daysAfter: u64, ticksBefore: u64, ticksAfter: u64, elapsed: u64, moved: bool, arrived: bool)

  function Days(ticks: u64): u64 { Div(ticks, TICKS_PER_DAY) }

  function AfterTicks(c: Caravan, ticks: u64): Caravan {
    var left := TicksRemaining(c) - Min(TicksRemaining(c), ticks);
    c.(ticksRemaining := left, daysRemaining := Days(left))
  }

  class CaravanState {
    const id: string
    const displayName: string
    const routeId: string
    const origin: string
    const destination: string
    const totalDays: u64
    const totalTicks: u64
    const cargo: ResourceStorage
    var daysRemaining: u64
    var ticksRemaining: u64

    constructor FromValue(c: Caravan)
      ensures fresh(cargo) && View() == c
    {
      id, displayName, routeId, origin, destination := c.id, c.displayName, c.routeId, c.origin, c.destination;
      totalDays, totalTicks := c.totalDays, c.totalTicks;
      daysRemaining, ticksRemaining := c.daysRemaining, c.ticksRemaining;
      var goods := new ResourceStorage();
      cargo := goods;
      new;
      cargo.entries := c.cargo;
    }

    function View(): Caravan
      reads this, cargo
    {
      Caravan(id, displayName, routeId, origin, destination, totalDays, daysRemaining, totalTicks, ticksRemaining,
              cargo.entries)
    }

    method AdvanceTicks(ticks: u64) returns (r: AdvanceReport)
      modifies this`daysRemaining, this`ticksRemaining
      ensures View() == AfterTicks(old(View()), ticks)
      ensures r.ticksBefore == TicksRemaining(old(View())) && r.ticksAfter == TicksRemaining(View())
      ensures r.ticksBefore - r.ticksAfter == r.elapsed <= ticks
      ensures r.daysBefore == Days(r.ticksBefore) && r.daysAfter == Days(r.ticksAfter)
      ensures (r.moved <==> r.elapsed > 0) && (r.arrived <==> Arrived(View()))
    {
      var before := TicksRemaining(View());
      var elapsed := Min(before, ticks);
      var after := before - elapsed;
      r := AdvanceReport(Days(before), Days(after), before, after, elapsed, elapsed > 0, after == 0);
      ticksRemaining := after;
      daysRemaining := Days(after);
    }
  }

  ghost function Cargos(cs: seq<CaravanState>): set<ResourceStorage> {
    set c <- cs :: c.cargo
  }

  ghost function CaravanViews(cs: seq<CaravanState>): (vs: seq<Caravan>)
    reads cs, Cargos(cs)
    ensures |vs| == |cs| && forall k :: 0 <= k < |cs| ==> vs[k] == cs[k].View()
  {
    seq(|cs|, k requires 0 <= k < |cs| reads cs, Cargos(cs) => cs[k].View())
  }

  // ---- motion ----

  function Travel(c: Caravan, steps: seq<u64>): Caravan
    decreases |steps|
  {
    if steps == [] then c else Travel(AfterTicks(c, steps[0]), steps[1..])
  }

  // Over any steps a caravan covers the time given, until it has arrived; then it stays.
  lemma {:induction false} TravelCovers(c: Caravan, steps: seq<u64>)
    ensures var end := Travel(c, steps);
      && TicksRemaining(end) == Max(0, TicksRemaining(c) - Sum(steps))
      && (steps != [] ==> end.ticksRemaining == TicksRemaining(end) && end.daysRemaining == Days(end.ticksRemaining))
      && end.(ticksRemaining := c.ticksRemaining, daysRemaining := c.daysRemaining) == c
    decreases |steps|
  {
    if steps != [] {
      var next := AfterTicks(c, steps[0]);
      TravelCovers(next, steps[1..]);
    }
  }

  // How a journey is cut into steps does not matter.
  lemma TravelPartition(c: Caravan, a: seq<u64>, b: seq<u64>)
    requires a != [] && b != [] && Sum(a) == Sum(b)
    ensures Travel(c, a) == Travel(c, b)
  {
    TravelCovers(c, a);
    TravelCovers(c, b);
  }

  lemma ArrivalIsAbsorbing(c: Caravan, steps: seq<u64>)
    requires Arrived(c)
    ensures Arrived(Travel(c, steps))
  {
    TravelCovers(c, steps);
  }

  // However a valid caravan has travelled, it is valid if and only if it has not moved at all, or
  // less than a day is left, or whole days are.
  lemma StaysValidExactly(c: Caravan, steps: seq<u64>)
    requires Valid(c)
    ensures var left := Max(0, TicksRemaining(c) - Sum(steps));
            Valid(Travel(c, steps)) <==> steps == [] || left < TICKS_PER_DAY || left % TICKS_PER_DAY == 0
  {
    TravelCovers(c, steps);
    if steps != [] {
      var end := Travel(c, steps);
      hide Travel;
      WholeDays(end);
    }
  }

  lemma WholeDays(c: Caravan)
    requires c.daysRemaining == Days(c.ticksRemaining)
    ensures c.daysRemaining > 0 <==> c.ticksRemaining >= TICKS_PER_DAY
    ensures c.ticksRemaining == c.daysRemaining * TICKS_PER_DAY <==> c.ticksRemaining % TICKS_PER_DAY == 0
  {
    var left, days := c.ticksRemaining, c.daysRemaining;
    assert days * TICKS_PER_DAY <= left < days * TICKS_PER_DAY + TICKS_PER_DAY;
  }

  // A two-day journey after half a day: no longer valid by the caravan's own check.
  lemma PartDayIsInvalid(c: Caravan)
    requires Valid(c) && TicksRemaining(c) == 2 * TICKS_PER_DAY
    ensures !Valid(Travel(c, [43200]))
  {
    assert [43200][1..] == [];
    StaysValidExactly(c, [43200]);
  }

  // ---- goods ----

  predicate CanLoad(c: Caravan, s: Settlement, r: string, n: u64) {
    && r != [] && n > 0 && s.id == c.origin && TicksRemaining(c) == TotalTicks(c)
    && CanRemove(s.storage, r, n) && CanAdd(c.cargo, r, n)
  }

  predicate CanUnload(c: Caravan, s: Settlement, r: string, n: u64) {
    && r != [] && n > 0 && s.id == c.destination && Arrived(c)
    && CanRemove(c.cargo, r, n) && CanAdd(s.storage, r, n)
  }

  // Putting back what was just taken cannot fail and restores the storage.
  lemma RollbackRestores(s: Stock, r: string, n: u64)
    requires r != [] && CanRemove(s, r, n)
    ensures CanAdd(Removed(s, r, n), r, n) && Added(Removed(s, r, n), r, n) == s
  {
  }

  method LoadAtOrigin(c: CaravanState, s: SettlementState, r: string, n: u64) returns (errors: nat)
    requires c.cargo != s.storage
    modifies c.cargo, s.storage
    ensures errors == 0 <==> CanLoad(old(c.View()), old(s.View()), r, n)
    ensures errors == 0 ==>
      && s.storage.entries == Removed(old(s.storage.entries), r, n)
      && c.cargo.entries == Added(old(c.cargo.entries), r, n)
    ensures errors > 0 ==> s.storage.entries == old(s.storage.entries) && c.cargo.entries == old(c.cargo.entries)
  {
    errors := (if r == [] then 1 else 0) + (if n == 0 then 1 else 0);
    if errors > 0 { return; }
    if s.id != c.origin { return 1; }
    if TicksRemaining(c.View()) != TotalTicks(c.View()) { return 1; }
    var removed := s.storage.TryRemove(r, n);
    if !removed { return 1; }
    errors := c.cargo.Add(r, n);
    if errors > 0 {
      RollbackRestores(old(s.storage.entries), r, n);
      var rollback := s.storage.Add(r, n);
      assert rollback == 0;
    }
  }

  method UnloadAtDestination(c: CaravanState, s: SettlementState, r: string, n: u64) returns (errors: nat)
    requires c.cargo != s.storage
    modifies c.cargo, s.storage
    ensures errors == 0 <==> CanUnload(old(c.View()), old(s.View()), r, n)
    ensures errors == 0 ==>
      && c.cargo.entries == Removed(old(c.cargo.entries), r, n)
      && s.storage.entries == Added(old(s.storage.entries), r, n)
    ensures errors > 0 ==> s.storage.entries == old(s.storage.entries) && c.cargo.entries == old(c.cargo.entries)
  {
    errors := (if r == [] then 1 else 0) + (if n == 0 then 1 else 0);
    if errors > 0 { return; }
    if s.id != c.destination { return 1; }
    if !Arrived(c.View()) { return 1; }
    var removed := c.cargo.TryRemove(r, n);
    if !removed { return 1; }
    errors := s.storage.Add(r, n);
    if errors > 0 {
      RollbackRestores(old(c.cargo.entries), r, n);
      var rollback := c.cargo.Add(r, n);
      assert rollback == 0;
    }
  }

  // Goods moved between two storages are conserved, resource by resource.
  lemma MoveConserves(from: Stock, to: Stock, r: string, n: u64, q: string)
    requires CanRemove(from, r, n) && CanAdd(to, r, n)
    ensures Amount(Removed(from, r, n), q) + Amount(Added(to, r, n), q) == Amount(from, q) + Amount(to, q)
  {
    AmountAfter(from, r, n, q);
    AmountAfter(to, r, n, q);
  }

  // A whole delivery: loaded before departure, carried for long enough, unloaded on arrival.
  lemma DeliveryConserves(c: Caravan, from: Settlement, to: Settlement, r: string, n: u64, steps: seq<u64>, q: string)
    requires CanLoad(c, from, r, n) && Sum(steps) >= TotalTicks(c) && to.id == c.destination && CanAdd(to.storage, r, n)
    ensures var loaded := c.(cargo := Added(c.cargo, r, n)); var there := Travel(loaded, steps);
      && CanUnload(there, to, r, n)
      && Amount(Removed(from.storage, r, n), q) + Amount(Removed(there.cargo, r, n), q)
         + Amount(Added(to.storage, r, n), q)
         == Amount(from.storage, q) + Amount(c.cargo, q) + Amount(to.storage, q)
  {
    var loaded := c.(cargo := Added(c.cargo, r, n));
    TravelCovers(loaded, steps);
    AmountAfter(c.cargo, r, n, r);
    MoveConserves(from.storage, c.cargo, r, n, q);
    MoveConserves(loaded.cargo, to.storage, r, n, q);
  }
}
