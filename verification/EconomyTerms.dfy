// Caravans, contracts, trades and market signals, each told from the raw fields.
module EconomyTerms {
  import opened U64
  import opened Records
  import opened Storage
  import opened Settlement
  import opened Ledger
  import opened Trade
  import opened Contracts
  import opened Caravans
  import Planner
  import Pressure

  // ---- caravans ----

  // Ticks count; where there are none, days do.
  predicate StillGoing(c: Caravan, left: nat) {
    left == if c.ticksRemaining > 0 then c.ticksRemaining else Min(86400 * c.daysRemaining, U64_MAX)
  }

  predicate WholeWay(c: Caravan, all: nat) {
    all == if c.totalTicks > 0 then c.totalTicks else Min(86400 * c.totalDays, U64_MAX)
  }

  // Goods leave the cargo only at the destination, when no tick and no day is left, as far as the cargo
  // holds them and the store has room.
  lemma UnloadsExactly(c: Caravan, s: Settlement, r: string, n: u64)
    ensures CanUnload(c, s, r, n) <==>
      && r != "" && n > 0 && s.id == c.destination && c.ticksRemaining == 0 && c.daysRemaining == 0
      && r in c.cargo && c.cargo[r] >= n && (r in s.storage ==> s.storage[r] + n <= U64_MAX)
  {
  }

  // Goods enter the cargo only at the origin, with the whole way still to go.
  lemma LoadsExactly(c: Caravan, s: Settlement, r: string, n: u64, left: nat, all: nat)
    requires StillGoing(c, left) && WholeWay(c, all)
    ensures CanLoad(c, s, r, n) <==>
      && r != "" && n > 0 && s.id == c.origin && left == all
      && r in s.storage && s.storage[r] >= n && (r in c.cargo ==> c.cargo[r] + n <= U64_MAX)
  {
  }

  // Every missing name, a way from a place to itself, and every count that does not agree is one error.
  lemma CaravanErrorsCounted(c: Caravan, left: nat, all: nat)
    requires StillGoing(c, left) && WholeWay(c, all)
    ensures ValidateCaravan(c) ==
      Tally(c.id == "") + Tally(c.displayName == "") + Tally(c.routeId == "") + Tally(c.origin == "")
      + Tally(c.destination == "") + Tally(c.origin == c.destination != "") + Tally(all == 0)
      + Tally(all < left) + Tally(c.totalDays > 0 && c.totalTicks !in {0, Min(86400 * c.totalDays, U64_MAX)})
      + Tally(c.daysRemaining > 0 && c.ticksRemaining !in {0, Min(86400 * c.daysRemaining, U64_MAX)})
  {
    assert TotalTicks(c) == all && TicksRemaining(c) == left;
    hide TotalTicks, TicksRemaining, DaysToTicks, StillGoing, WholeWay, Caravans.Valid;
  }

  // ---- contracts ----

  predicate FirstWith(cs: Catalog, id: string, i: nat) {
    i < |cs| && cs[i].id == id && forall j :: 0 <= j < i ==> cs[j].id != id
  }

  predicate DueAt(c: Contract, due: nat) {
    due == if c.dueTicks > 0 then c.dueTicks else Min(86400 * c.dueDay, U64_MAX)
  }

  lemma ContractErrorsCounted(c: Contract, due: nat)
    requires DueAt(c, due)
    ensures ValidateContract(c) ==
      Tally(c.id == "") + Tally(c.displayName == "") + Tally(c.issuer == "") + Tally(c.receiver == "")
      + Tally(c.issuer == c.receiver != "") + Tally(c.resourceId == "") + Tally(c.quantity == 0)
      + Tally(c.reward == 0) + Tally(due == 0)
      + Tally(c.dueDay > 0 && c.dueTicks !in {0, Min(86400 * c.dueDay, U64_MAX)})
  {
    assert DueTicks(c) == due;
    hide DueTicks, DaysToTicks, DueAt, ValidContract;
  }

  // A contract is taken up exactly when it is complete, open, consistently dated, and its id is new; it
  // is then kept with its due tick.
  lemma AddsExactly(cs: Catalog, c: Contract, due: nat)
    requires DueAt(c, due)
    ensures CanAddContract(cs, c) <==>
      && "" !in {c.id, c.displayName, c.issuer, c.receiver, c.resourceId} && c.issuer != c.receiver
      && c.quantity > 0 && c.reward > 0 && due > 0 && c.status == Open
      && (c.dueDay > 0 && c.dueTicks > 0 ==> c.dueTicks == Min(86400 * c.dueDay, U64_MAX))
      && forall k :: 0 <= k < |cs| ==> cs[k].id != c.id
    ensures Dated(c) == c.(dueTicks := due)
  {
  }

  // A sweep fails exactly the open contracts whose due tick has passed, and leaves all else as it is.
  lemma SweepsExactly(cs: Catalog, tick: u64, i: nat, due: nat)
    requires i < |cs| && DueAt(cs[i], due)
    ensures |Swept(cs, tick)| == |cs|
    ensures Swept(cs, tick)[i] == if cs[i].status.Open? && due < tick then cs[i].(status := Status.Failed) else cs[i]
  {
  }

  predicate Changes(cs: Catalog, tick: u64, i: nat)
    requires i < |cs|
  {
    Swept(cs, tick)[i] != cs[i]
  }

  lemma ChangesSnoc(cs: Catalog, tick: u64, n: nat)
    requires |cs| == n + 1
    ensures forall i :: 0 <= i < n ==> Changes(cs, tick, i) == Changes(cs[..n], tick, i)
    ensures Changes(cs, tick, n) <==> Overdue(cs[n], tick)
    ensures OverdueIds(cs, tick) == OverdueIds(cs[..n], tick) + if Changes(cs, tick, n) then [cs[n].id] else []
  {
  }

  // The positions, in catalog order, of the contracts a sweep changes.
  predicate Lists(at: seq<nat>, cs: Catalog, tick: u64) {
    && (forall k :: 0 <= k < |at| ==> at[k] < |cs| && Changes(cs, tick, at[k]))
    && (forall k, l :: 0 <= k < l < |at| ==> at[k] < at[l])
    && (forall i :: 0 <= i < |cs| && Changes(cs, tick, i) ==> i in at)
  }

  // Those it reports are the ones it changes, in catalog order.
  lemma {:induction false} ReportsTheSwept(cs: Catalog, tick: u64) returns (at: seq<nat>)
    ensures Lists(at, cs, tick)
    ensures |at| == |OverdueIds(cs, tick)|
    ensures forall k :: 0 <= k < |at| ==> cs[at[k]].id == OverdueIds(cs, tick)[k]
  {
    at := [];
    if cs != [] {
      var n := |cs| - 1;
      at := ReportsTheSwept(cs[..n], tick);
      ChangesSnoc(cs, tick, n);
      hide Changes, OverdueIds, Overdue;
      if Changes(cs, tick, n) { at := at + [n]; }
    }
  }

  // A delivery asks for an open contract, the first under its id, and its goods in stock.
  lemma DeliversExactly(cs: Catalog, id: string, stock: Stock)
    ensures CanDeliver(cs, id, stock) <==>
      id != "" && exists i: nat :: FirstWith(cs, id, i) && cs[i].status.Open? && cs[i].quantity > 0
                                   && cs[i].resourceId in stock && stock[cs[i].resourceId] >= cs[i].quantity
  {
    var i := Find(cs, id);
    assert i < |cs| ==> FirstWith(cs, id, i);
  }

  // Paying and booking it ask in addition for room in the purse, and for a number in the ledger.
  lemma SettlesExactly(cs: Catalog, id: string, stock: Stock, coins: u64, book: Book, i: nat)
    requires CanDeliver(cs, id, stock) && FirstWith(cs, id, i)
    ensures CanPay(cs, id, stock, coins) <==> coins + cs[i].reward <= U64_MAX
    ensures CanSettle(cs, id, stock, coins, book) <==>
      && coins + cs[i].reward <= U64_MAX
      && cs[i].resourceId != "" && cs[i].reward > 0 && book.next < U64_MAX
    ensures Payout(cs[i]) == Entry(0, ContractReward, cs[i].resourceId, cs[i].quantity, 0, cs[i].reward, id,
                                   "contract reward payout")
  {
  }

  // ---- plans ----

  // A plan shows the first contract of that id, what there is, what of it can go, and what is missing.
  predicate Shows(p: Planner.Plan, c: Contract, have: u64) {
    && p.contractId == c.id && p.resourceId == c.resourceId && p.required == c.quantity && p.available == have
    && p.transferable == (if have < c.quantity then have else c.quantity)
    && p.missing == (if have < c.quantity then c.quantity - have else 0)
  }

  lemma StoragePlanTells(cs: Catalog, id: string, stock: Stock, i: nat)
    ensures var p := Planner.PlanFromStorage(cs, id, stock);
      && (FirstWith(cs, id, i) ==>
            && Shows(p, cs[i], Amount(stock, cs[i].resourceId)) && p.source.FromStorage?
            && p.sourceReady && p.ownerMatches && (p.canFulfill <==> cs[i].status.Open? && p.missing == 0))
      && ((forall k :: 0 <= k < |cs| ==> cs[k].id != id) ==>
            p == Planner.Plan(id, "", Planner.FromStorage, 0, 0, 0, 0, false, false, false))
  {
  }

  lemma CaravanPlanTells(cs: Catalog, id: string, caravan: Caravan, o: Planner.MaybeOwnership, expected: string, i: nat)
    ensures var p := Planner.PlanFromCaravan(cs, id, caravan, o, expected);
      && (FirstWith(cs, id, i) ==>
            && Shows(p, cs[i], Amount(caravan.cargo, cs[i].resourceId)) && p.source.FromCaravan?
            && (p.sourceReady <==> caravan.ticksRemaining == 0 && caravan.daysRemaining == 0)
            && (p.ownerMatches <==>
                  o.NoOwnership? || expected == "" || OwnerOf(o.ownership, caravan.id) == expected)
            && (p.canFulfill <==> cs[i].status.Open? && p.sourceReady && p.ownerMatches && p.missing == 0))
      && ((forall k :: 0 <= k < |cs| ==> cs[k].id != id) ==>
            p == Planner.Plan(id, "", Planner.FromCaravan, 0, 0, 0, 0, false, false, false))
  {
  }

  // ---- trades ----

  lemma BuysExactly(coins: u64, stock: Stock, p: MarketPrice, quantity: u64)
    ensures CanBuy(coins, stock, p, quantity) <==>
      && p.resourceId != "" && quantity > 0 && p.price > 0 && p.price * quantity <= coins
      && (p.resourceId in stock ==> stock[p.resourceId] + quantity <= U64_MAX)
    ensures CanBuy(coins, stock, p, quantity) ==>
              Done(p, quantity) == TradeResult(true, p.resourceId, quantity, p.price, p.price * quantity)
    ensures Trade.Failed(p, quantity) == TradeResult(false, p.resourceId, quantity, p.price, 0)
  {
    MulMonotone(quantity, 0, p.price);
  }

  lemma SellsExactly(coins: u64, stock: Stock, p: MarketPrice, quantity: u64)
    ensures CanSell(coins, stock, p, quantity) <==>
      && p.resourceId != "" && quantity > 0 && p.price > 0 && coins + p.price * quantity <= U64_MAX
      && p.resourceId in stock && stock[p.resourceId] >= quantity
  {
    MulMonotone(quantity, 0, p.price);
  }

  // ---- the ledger ----

  lemma RecordsExactly(b: Book, kind: EntryType, t: TradeResult, note: string)
    ensures CanRecord(b, kind, t) <==>
      && kind in {Buy, Sell} && t.ok && t.resourceId != "" && t.quantity > 0 && t.unitPrice > 0 && t.totalPrice > 0
      && b.next < U64_MAX
    ensures b.next < U64_MAX ==>
      Append(b, TradeEntry(kind, t, note)) ==
      Book(b.entries + [Entry(b.next, kind, t.resourceId, t.quantity, t.unitPrice, t.totalPrice, "", note)], b.next + 1)
  {
  }

  // Entries are taken back exactly when they are numbered from one and each names a resource, a quantity and
  // a value: trades with a unit price and no contract, rewards with a contract and no unit price.
  lemma TakesBackExactly(entries: seq<Entry>)
    requires |entries| < U64_MAX
    ensures Restorable(entries) <==> forall i :: 0 <= i < |entries| ==>
      var e := entries[i];
      && e.sequence == i + 1 && e.resourceId != "" && e.quantity > 0 && e.totalPrice > 0
      && (e.kind == ContractReward <==> e.unitPrice == 0) && (e.kind == ContractReward <==> e.referenceId != "")
    ensures ExpectedSequence(|entries|) == |entries| + 1
  {
  }

  // The sums start at zero and count an entry under its own kind and resource alone.
  lemma SumsTell(entries: seq<Entry>, e: Entry, kind: EntryType, r: string)
    ensures Quantity([], kind, r) == Ledger.Value([], kind, r) == Turnover([], kind) == CountKind([], kind) == 0
    ensures Quantity(entries + [e], kind, r) - Quantity(entries, kind, r)
            == if e.kind == kind && e.resourceId == r then e.quantity else 0
    ensures Ledger.Value(entries + [e], kind, r) - Ledger.Value(entries, kind, r)
            == if e.kind == kind && e.resourceId == r then e.totalPrice else 0
    ensures Turnover(entries + [e], kind) - Turnover(entries, kind) == if e.kind == kind then e.totalPrice else 0
    ensures CountKind(entries + [e], kind) - CountKind(entries, kind) == if e.kind == kind then 1 else 0
  {
    var all := entries + [e];
    SumsStep(all, |entries|, kind, r);
    assert all[..|entries|] == entries && all[..|entries| + 1] == all;
  }

  // ---- signals ----

  // The resource named as under the highest pressure is the first one that is, if any is at all.
  lemma HighestTells(prices: seq<MarketPrice>, top: u64, id: string)
    requires Pressure.IsHighest(prices, top, id)
    ensures forall i :: 0 <= i < |prices| ==> Pressure.SignalOf(prices[i]).basisPoints <= top
    ensures top == 0 ==> id == ""
    ensures top > 0 ==>
      exists i ::
        && 0 <= i < |prices| && prices[i].resourceId == id && Pressure.SignalOf(prices[i]).basisPoints == top
        && forall k :: 0 <= k < i ==> Pressure.SignalOf(prices[k]).basisPoints < top
  {
    hide Pressure.SignalOf;
    if top > 0 { var i := Pressure.FirstAt(prices, top); }
  }

  lemma SignalTells(p: MarketPrice)
    ensures var s := Pressure.SignalOf(p);
      && s.resourceId == p.resourceId && s.supply == p.supply && s.demand == p.demand
      && s.unitPrice == p.price && s.baseValue == p.baseValue
      && s.gap == (if p.supply < p.demand then p.demand - p.supply else p.supply - p.demand)
      && s.level == (if p.supply == p.demand then Pressure.Balanced
                     else if p.supply > p.demand then Pressure.Surplus
                     else if p.supply > 0 then Pressure.Shortage
                     else Pressure.Depleted)
      && (s.canFulfill <==> p.demand <= p.supply)
      && s.reason == (if p.supply == 0 < p.demand then "demand exists with no supply" else p.reason)
      && (10000 * s.gap > 0xFFFF_FFFF_FFFF_FFFF ==> s.basisPoints == 10000)
  {
  }
}
