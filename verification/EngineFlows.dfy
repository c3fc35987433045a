// Where the goods of a simulated world go, and how days pass in it.
module EngineFlows {
  import opened U64
  import opened Storage
  import opened DataRegistry
  import opened Settlement
  import opened SettlementLaws
  import opened SettlementFlows
  import opened Aggregate
  import opened Engine
  import opened EngineRuns

  // ---- where goods go ----

  ghost function Wealth(ss: seq<Settlement>): nat {
    if ss == [] then 0 else Wealth(ss[..|ss| - 1]) + Total(ss[|ss| - 1].storage)
  }

  lemma {:induction false} WealthUpdated(ss: seq<Settlement>, i: nat, s: Settlement)
    requires i < |ss|
    ensures Wealth(ss[i := s]) == Wealth(ss) - Total(ss[i].storage) + Total(s.storage)
  {
    var n := |ss| - 1;
    if i < n {
      WealthUpdated(ss[..n], i, s);
      assert ss[i := s][..n] == ss[..n][i := s];
    } else {
      assert ss[i := s][..n] == ss[..n];
    }
  }

  // What an accepted command brings in or takes out of the world.
  function Delivered(c: Command): int {
    match c
    case AddResource(_, _, n) => n
    case RemoveResource(_, _, n) => 0 - n
    case _ => 0
  }

  function Goods(c: Command): string {
    match c
    case AddResource(_, r, _) => r
    case RemoveResource(_, r, _) => r
    case TransferResource(_, _, r, _) => r
    case _ => ""
  }

  // Of each resource, a command changes the world's holdings by exactly what it delivers: transfers
  // and refused commands by nothing.
  lemma CommandConserves(ss: seq<Settlement>, registry: Registry, c: Command, q: string)
    ensures var ss' := Execute(ss, registry, c); var n := if Accepts(ss, registry, c) then Delivered(c) else 0;
      && Held(ss', q) == Held(ss, q) + (if q == Goods(c) then n else 0)
      && Wealth(ss') == Wealth(ss) + n
  {
    if Accepts(ss, registry, c) {
      match c {
        case CreateSettlement(id) =>
          assert (ss + [Founded(id, registry.settlements[id])])[..|ss|] == ss;
          HeldSnoc(ss + [Founded(id, registry.settlements[id])], q);
        case AddBuilding(id, b) =>
          var i := Find(ss, id);
          HeldUpdated(ss, i, ss[i].(buildings := ss[i].buildings + [b]), q);
          WealthUpdated(ss, i, ss[i].(buildings := ss[i].buildings + [b]));
        case AddResource(id, r, n) => StorageConserves(ss, Find(ss, id), r, n, q);
        case RemoveResource(id, r, n) => StorageConserves(ss, Find(ss, id), r, n, q);
        case TransferResource(id, target, r, n) =>
          var i, j := Find(ss, id), Find(ss, target);
          StorageConserves(ss, i, r, n, q);
          StorageConserves(WithStorage(ss, i, Removed(ss[i].storage, r, n)), j, r, n, q);
      }
    }
  }

  lemma StorageConserves(ss: seq<Settlement>, i: nat, r: string, n: u64, q: string)
    requires i < |ss|
    ensures CanAdd(ss[i].storage, r, n) ==> var ss' := WithStorage(ss, i, Added(ss[i].storage, r, n));
      Held(ss', q) == Held(ss, q) + (if q == r then n else 0) && Wealth(ss') == Wealth(ss) + n
    ensures CanRemove(ss[i].storage, r, n) ==> var ss' := WithStorage(ss, i, Removed(ss[i].storage, r, n));
      Held(ss', q) == Held(ss, q) - (if q == r then n else 0) && Wealth(ss') == Wealth(ss) - n
  {
    var stock := ss[i].storage;
    AmountAfter(stock, r, n, q);
    TotalAfter(stock, r, n);
    if CanAdd(stock, r, n) {
      HeldUpdated(ss, i, ss[i].(storage := Added(stock, r, n)), q);
      WealthUpdated(ss, i, ss[i].(storage := Added(stock, r, n)));
    }
    if CanRemove(stock, r, n) {
      HeldUpdated(ss, i, ss[i].(storage := Removed(stock, r, n)), q);
      WealthUpdated(ss, i, ss[i].(storage := Removed(stock, r, n)));
    }
  }

  // What one day makes, less what it eats and uses up.
  ghost function Grown(ss: seq<Settlement>, registry: Registry): int {
    if ss == [] then 0
    else
      var t := TickSettlement(ss[|ss| - 1], registry, TICKS_PER_DAY);
      Grown(ss[..|ss| - 1], registry) + t.outputs - t.food - t.inputs
  }

  lemma {:induction false} DayConserves(ss: seq<Settlement>, registry: Registry)
    ensures Wealth(Advanced(ss, registry)) == Wealth(ss) + Grown(ss, registry)
  {
    if ss != [] {
      var n := |ss| - 1;
      DayConserves(ss[..n], registry);
      TickConserves(ss[n], registry, TICKS_PER_DAY);
      assert Advanced(ss, registry)[..n] == Advanced(ss[..n], registry);
    }
  }

  // Of one resource, what one day makes, less what is eaten and used up.
  ghost function Gained(ss: seq<Settlement>, registry: Registry, r: string): int {
    if ss == [] then 0
    else
      var s := ss[|ss| - 1];
      var fed := Feed(s, TICKS_PER_DAY);
      Gained(ss[..|ss| - 1], registry, r) + MadeByAll(fed, s.buildings, registry, TICKS_PER_DAY, r)
        - UsedByAll(fed, s.buildings, registry, TICKS_PER_DAY, r) - Eaten(s, TICKS_PER_DAY, r)
  }

  lemma {:induction false} DayBalances(ss: seq<Settlement>, registry: Registry, r: string)
    ensures Held(Advanced(ss, registry), r) == Held(ss, r) + Gained(ss, registry, r)
  {
    if ss != [] {
      var n := |ss| - 1;
      DayBalances(ss[..n], registry, r);
      HeldSnoc(ss, r);
      HeldSnoc(Advanced(ss, registry), r);
      TickBalances(ss[n], registry, TICKS_PER_DAY, r);
      hide MadeByAll, UsedByAll, Eaten, TickSettlement;
      assert Advanced(ss, registry)[..n] == Advanced(ss[..n], registry);
    }
  }

  ghost function Flow(e: State, registry: Registry, op: Op): int {
    match op
    case Do(c) => if Accepts(e.settlements, registry, c) then Delivered(c) else 0
    case NewDay => Grown(e.settlements, registry)
    case _ => 0
  }

  ghost function FlowOf(e: State, registry: Registry, op: Op, r: string): int {
    match op
    case Do(c) => if Accepts(e.settlements, registry, c) && r == Goods(c) then Delivered(c) else 0
    case NewDay => Gained(e.settlements, registry, r)
    case _ => 0
  }

  ghost function Flows(e: State, registry: Registry, ops: seq<Op>): int {
    if ops == [] then 0
    else
      var n := |ops| - 1;
      Flows(e, registry, ops[..n]) + Flow(Play(e, registry, ops[..n]), registry, ops[n])
  }

  ghost function FlowsOf(e: State, registry: Registry, ops: seq<Op>, r: string): int {
    if ops == [] then 0
    else
      var n := |ops| - 1;
      FlowsOf(e, registry, ops[..n], r) + FlowOf(Play(e, registry, ops[..n]), registry, ops[n], r)
  }

  // Over a whole run from any state, everything in every storage is accounted for by deliveries,
  // removals, production and consumption.
  lemma {:induction false} RunConserves(e: State, registry: Registry, ops: seq<Op>)
    requires forall i :: 0 <= i < |ops| ==> !ops[i].Load?
    ensures Wealth(Play(e, registry, ops).settlements) == Wealth(e.settlements) + Flows(e, registry, ops)
  {
    hide Grown, Wealth, Accepts, Execute, Advanced, DayEvents;
    if ops != [] {
      var n := |ops| - 1;
      RunConserves(e, registry, ops[..n]);
      var now := Play(e, registry, ops[..n]);
      match ops[n] {
        case Do(c) => CommandConserves(now.settlements, registry, c, "");
        case NewDay => DayConserves(now.settlements, registry);
        case _ =>
      }
    }
  }

  // And so is every single resource.
  lemma {:induction false} RunBalances(e: State, registry: Registry, ops: seq<Op>, r: string)
    requires forall i :: 0 <= i < |ops| ==> !ops[i].Load?
    ensures Held(Play(e, registry, ops).settlements, r) == Held(e.settlements, r) + FlowsOf(e, registry, ops, r)
  {
    hide Gained, Held, Accepts, Execute, Advanced, DayEvents;
    if ops != [] {
      var n := |ops| - 1;
      RunBalances(e, registry, ops[..n], r);
      var now := Play(e, registry, ops[..n]);
      match ops[n] {
        case Do(c) => CommandConserves(now.settlements, registry, c, r);
        case NewDay => DayBalances(now.settlements, registry, r);
        case _ =>
      }
    }
  }

  // ---- days ----

  // Running days in two goes is running them in one.
  lemma {:induction false} DaysSplit(e: State, registry: Registry, m: nat, n: nat)
    ensures DaysLater(e, registry, m + n) == DaysLater(DaysLater(e, registry, m), registry, n)
  {
    hide NextDay;
    if n > 0 {
      DaysSplit(e, registry, m, n - 1);
      OneMoreDay(e, registry, m + (n - 1));
    }
  }

  function DaysOf(s: Settlement, registry: Registry, n: nat): Settlement {
    if n == 0 then s else DayLater(DaysOf(s, registry, n - 1), registry)
  }

  // Each settlement lives its days as if it were alone.
  lemma {:induction false} SettlementsTickAlone(e: State, registry: Registry, n: nat, i: nat)
    requires i < |e.settlements|
    ensures |DaysLater(e, registry, n).settlements| == |e.settlements|
    ensures DaysLater(e, registry, n).settlements[i] == DaysOf(e.settlements[i], registry, n)
  {
    hide DayLater;
    if n > 0 { SettlementsTickAlone(e, registry, n - 1, i); }
  }

  ghost predicate AllInLockstep(ss: seq<Settlement>) { forall i :: 0 <= i < |ss| ==> Lockstep(ss[i].remainders) }

  // Whatever is loaded on the way was itself in lockstep when it was saved.
  ghost predicate LoadsInLockstep(ops: seq<Op>) {
    forall i :: 0 <= i < |ops| && ops[i].Load? ==> AllInLockstep(ops[i].saved.settlements)
  }

  lemma {:induction false} RunKeepsLockstep(registry: Registry, ops: seq<Op>)
    requires LoadsInLockstep(ops)
    ensures AllInLockstep(Play(FRESH, registry, ops).settlements)
  {
    hide AllInLockstep, Accepts, Execute, Advanced, DayEvents;
    NobodyIsInLockstep();
    if ops != [] {
      var n := |ops| - 1;
      RunKeepsLockstep(registry, ops[..n]);
      var ss := Play(FRESH, registry, ops[..n]).settlements;
      match ops[n] {
        case Do(c) => CommandKeepsLockstep(ss, registry, c);
        case NewDay => DayKeepsLockstep(ss, registry);
        case _ =>
      }
    }
  }

  lemma NobodyIsInLockstep()
    ensures AllInLockstep([])
  {
  }

  lemma DayKeepsLockstep(ss: seq<Settlement>, registry: Registry)
    requires AllInLockstep(ss)
    ensures AllInLockstep(Advanced(ss, registry))
  {
    forall i | 0 <= i < |ss| ensures Lockstep(DayLater(ss[i], registry).remainders) {
      TickKeepsLockstep(ss[i], registry, TICKS_PER_DAY);
    }
  }

  lemma CommandKeepsLockstep(ss: seq<Settlement>, registry: Registry, c: Command)
    requires AllInLockstep(ss)
    ensures AllInLockstep(Execute(ss, registry, c))
  {
    hide Lockstep;
    NewSettlementsAreInLockstep();
  }

  // So the exports of such runs may be loaded in further ones.
  lemma ExportsAreInLockstep(registry: Registry, ops: seq<Op>, saved: Saved)
    requires LoadsInLockstep(ops) && IsExport(saved, Play(FRESH, registry, ops))
    ensures LoadsInLockstep([Load(saved)])
  {
    hide Play, AllInLockstep;
    RunKeepsLockstep(registry, ops);
  }

  // In an engine that loads nothing but such exports, on any day every building needs of each input exactly
  // what it makes of each output.
  lemma EveryBuildingEarnsWhatItNeeds(registry: Registry, ops: seq<Op>, i: nat, k: nat)
    requires LoadsInLockstep(ops)
    requires var ss := Play(FRESH, registry, ops).settlements;
      i < |ss| && k < |ss[i].buildings| && ss[i].buildings[k].definitionId in registry.buildings
    ensures var s := Play(FRESH, registry, ops).settlements[i]; var b := s.buildings[k];
      var d, turn := registry.buildings[b.definitionId], Turn(s, registry, TICKS_PER_DAY, k);
      Required(turn, b, d, TICKS_PER_DAY) == Earned(turn, b, d, TICKS_PER_DAY)
  {
    hide Lockstep, Play, Required, Earned, Turn;
    RunKeepsLockstep(registry, ops);
    RequiredIsEarned(Play(FRESH, registry, ops).settlements[i], registry, [], TICKS_PER_DAY, k);
  }
}
