// Whole runs of trade, deliveries, caravans and contracts: what reconciles, and payouts happening once.
module EconomyRuns {
  import opened U64
  import opened Records
  import opened Storage
  import opened Settlement
  import opened Ledger
  import opened Trade
  import opened Contracts
  import opened Caravans
  import opened Planner
  import opened Aggregate
  import Engine

  datatype World = World(coins: u64, towns: seq<Settlement>, caravans: seq<Caravan>, contracts: Catalog, book: Book)

  // Where goods are.
  datatype Place = Town(i: nat) | Cargo(k: nat)

  predicate Exists(w: World, at: Place) {
    match at case Town(i) => i < |w.towns| case Cargo(k) => k < |w.caravans|
  }

  function Goods(w: World, at: Place): Stock
    requires Exists(w, at)
  {
    match at case Town(i) => w.towns[i].storage case Cargo(k) => w.caravans[k].cargo
  }

  function WithGoods(w: World, at: Place, stock: Stock): World
    requires Exists(w, at)
  {
    match at
    case Town(i) => w.(towns := w.towns[i := w.towns[i].(storage := stock)])
    case Cargo(k) => w.(caravans := w.caravans[k := w.caravans[k].(cargo := stock)])
  }

  // What a delivery draws on: some storage, a caravan that must have arrived, or one that must also
  // belong to a faction.
  datatype Origin = Directly(at: Place) | OnArrival(k: nat) | OnOwnedArrival(k: nat, ownership: Owners, faction: string)

  function PlaceOf(from: Origin): Place {
    match from case Directly(at) => at case OnArrival(k) => Cargo(k) case OnOwnedArrival(k, _, _) => Cargo(k)
  }

  predicate Opens(w: World, from: Origin) {
    && Exists(w, PlaceOf(from))
    && match from
       case Directly(_) => true
       case OnArrival(k) => Arrived(w.caravans[k])
       case OnOwnedArrival(k, o, faction) => OwnedBy(o, w.caravans[k].id, faction) && Arrived(w.caravans[k])
  }

  // An operation on a place that is not there does nothing.
  datatype Op =
    | Deal(at: Place, kind: EntryType, price: MarketPrice, quantity: u64, note: string)
    | Fulfill(id: string, from: Origin, pay: Payment)
    | Add(contract: Contract)
    | Mark(id: string, status: Status)
    | Sweep(tick: u64)
    | Load(k: nat, i: nat, resource: string, amount: u64)
    | Unload(k: nat, i: nat, resource: string, amount: u64)
    | Go(k: nat, ticks: u64)

  // ---- what one operation does; the guards are exactly the success conditions of the methods ----

  predicate Deals(w: World, at: Place, kind: EntryType, p: MarketPrice, q: u64) {
    Exists(w, at) && CanTrade(w.coins, Goods(w, at), w.book, kind, p, q)
  }

  function Dealt(w: World, at: Place, kind: EntryType, p: MarketPrice, q: u64, note: string): World
    requires Deals(w, at, kind, p, q)
  {
    var stock := Goods(w, at);
    var after := if kind == Buy then Added(stock, p.resourceId, q) else Removed(stock, p.resourceId, q);
    WithGoods(w, at, after).(
      coins := if kind == Buy then w.coins - Cost(p, q) else w.coins + Cost(p, q),
      book := Append(w.book, TradeEntry(kind, Done(p, q), note)))
  }

  predicate Delivers(w: World, id: string, from: Origin, pay: Payment) {
    Opens(w, from) && CanFulfill(w.contracts, id, Goods(w, PlaceOf(from)), w.coins, w.book, pay)
  }

  function Terms(w: World, id: string): Contract
    requires Find(w.contracts, id) < |w.contracts|
  {
    w.contracts[Find(w.contracts, id)]
  }

  function Delivered(w: World, id: string, from: Origin, pay: Payment): World
    requires Delivers(w, id, from, pay)
  {
    var c, at := Terms(w, id), PlaceOf(from);
    WithGoods(w, at, Removed(Goods(w, at), c.resourceId, c.quantity)).(
      coins := if pay == Unpaid then w.coins else w.coins + c.reward,
      contracts := Marked(w.contracts, id, Fulfilled),
      book := if pay == Ledgered then Append(w.book, Payout(c)) else w.book)
  }

  predicate Loads(w: World, k: nat, i: nat, r: string, n: u64) {
    k < |w.caravans| && i < |w.towns| && CanLoad(w.caravans[k], w.towns[i], r, n)
  }

  predicate Unloads(w: World, k: nat, i: nat, r: string, n: u64) {
    k < |w.caravans| && i < |w.towns| && CanUnload(w.caravans[k], w.towns[i], r, n)
  }

  function Moved(w: World, from: Place, to: Place, r: string, n: u64): World
    requires Exists(w, from) && Exists(w, to) && CanRemove(Goods(w, from), r, n) && CanAdd(Goods(w, to), r, n)
  {
    WithGoods(WithGoods(w, from, Removed(Goods(w, from), r, n)), to, Added(Goods(w, to), r, n))
  }

  function Step(w: World, op: Op): World {
    match op
    case Deal(at, kind, p, q, note) => if Deals(w, at, kind, p, q) then Dealt(w, at, kind, p, q, note) else w
    case Fulfill(id, from, pay) => if Delivers(w, id, from, pay) then Delivered(w, id, from, pay) else w
    case Add(c) => if CanAddContract(w.contracts, c) then w.(contracts := w.contracts + [Dated(c)]) else w
    case Mark(id, status) => if IsOpen(w.contracts, id) then w.(contracts := Marked(w.contracts, id, status)) else w
    case Sweep(tick) => w.(contracts := Swept(w.contracts, tick))
    case Load(k, i, r, n) => if Loads(w, k, i, r, n) then Moved(w, Town(i), Cargo(k), r, n) else w
    case Unload(k, i, r, n) => if Unloads(w, k, i, r, n) then Moved(w, Cargo(k), Town(i), r, n) else w
    case Go(k, ticks) =>
      if k < |w.caravans| then w.(caravans := w.caravans[k := AfterTicks(w.caravans[k], ticks)]) else w
  }

  function Run(w: World, ops: seq<Op>): World
    decreases |ops|
  {
    if ops == [] then w else Run(Step(w, ops[0]), ops[1..])
  }

  // ---- the objects ----

  // No two towns or caravans share a storage.
  ghost predicate Apart(towns: seq<SettlementState>, caravans: seq<CaravanState>) {
    && Engine.Apart(towns)
    && (forall j, k :: 0 <= j < k < |caravans| ==> caravans[j] != caravans[k] && caravans[j].cargo != caravans[k].cargo)
    && (forall i, k :: 0 <= i < |towns| && 0 <= k < |caravans| ==> towns[i].storage != caravans[k].cargo)
  }

  // The objects as one value.
  ghost function View(wallet: Wallet, towns: seq<SettlementState>, caravans: seq<CaravanState>,
                      catalog: ContractCatalog, ledger: EconomyLedger): World
    reads wallet, towns, Engine.Stores(towns), caravans, Cargos(caravans), catalog, ledger
  {
    World(wallet.coins, Engine.Views(towns), CaravanViews(caravans), catalog.contracts, ledger.View())
  }

  function StoreAt(towns: seq<SettlementState>, caravans: seq<CaravanState>, at: Place): ResourceStorage
    requires match at case Town(i) => i < |towns| case Cargo(k) => k < |caravans|
  {
    match at case Town(i) => towns[i].storage case Cargo(k) => caravans[k].cargo
  }

  // Where an object is the only one changed, so is its part of the value.
  lemma OneStoreChanged(before: World, towns: seq<SettlementState>, caravans: seq<CaravanState>, at: Place)
    requires Exists(before, at) && |towns| == |before.towns| && |caravans| == |before.caravans|
    requires forall i :: 0 <= i < |towns| && Town(i) != at ==> towns[i].View() == before.towns[i]
    requires forall k :: 0 <= k < |caravans| && Cargo(k) != at ==> caravans[k].View() == before.caravans[k]
    requires at.Town? ==> towns[at.i].View() == before.towns[at.i].(storage := towns[at.i].storage.entries)
    requires at.Cargo? ==> caravans[at.k].View() == before.caravans[at.k].(cargo := caravans[at.k].cargo.entries)
    ensures var after := WithGoods(before, at, StoreAt(towns, caravans, at).entries);
      Engine.Views(towns) == after.towns && CaravanViews(caravans) == after.caravans
  {
  }

  method PerformDeal(wallet: Wallet, towns: seq<SettlementState>, caravans: seq<CaravanState>,
                     catalog: ContractCatalog, ledger: EconomyLedger,
                     at: Place, kind: EntryType, p: MarketPrice, quantity: u64, note: string)
    requires Apart(towns, caravans)
    modifies wallet, Engine.Stores(towns), Cargos(caravans), ledger
    ensures View(wallet, towns, caravans, catalog, ledger)
            == Step(old(View(wallet, towns, caravans, catalog, ledger)), Deal(at, kind, p, quantity, note))
  {
    ghost var before := View(wallet, towns, caravans, catalog, ledger);
    if !(match at case Town(i) => i < |towns| case Cargo(k) => k < |caravans|) { return; }
    if kind == ContractReward { return; }
    hide CanTrade, Append, TradeEntry, Cost, Step, Added, Removed;
    var store := StoreAt(towns, caravans, at);
    var r := TradeWithLedger(wallet, store, p, quantity, ledger, kind, note);
    OneStoreChanged(before, towns, caravans, at);
    DealIsStep(before, at, kind, p, quantity, note);
  }

  lemma DealIsStep(w: World, at: Place, kind: EntryType, p: MarketPrice, q: u64, note: string)
    requires Exists(w, at)
    ensures var w' := Step(w, Deal(at, kind, p, q, note)); var stock := Goods(w, at);
      if CanTrade(w.coins, stock, w.book, kind, p, q) then
        var after := if kind == Buy then Added(stock, p.resourceId, q) else Removed(stock, p.resourceId, q);
        && w' == WithGoods(w, at, after).(coins := w'.coins, book := w'.book)
        && w'.coins == (if kind == Buy then w.coins - Cost(p, q) else w.coins + Cost(p, q))
        && w'.book == Append(w.book, TradeEntry(kind, Done(p, q), note))
      else w' == w && WithGoods(w, at, stock) == w
  {
    SameGoods(w, at);
    hide Append, TradeEntry;
  }

  // What a delivery touches.
  datatype Parts = Parts(contracts: Catalog, stock: Stock, coins: u64, book: Book)

  function AfterDelivery(p: Parts, id: string, pay: Payment): Parts {
    if !CanFulfill(p.contracts, id, p.stock, p.coins, p.book, pay) then p
    else
      var c := p.contracts[Find(p.contracts, id)];
      Parts(Marked(p.contracts, id, Fulfilled), Removed(p.stock, c.resourceId, c.quantity),
            if pay == Unpaid then p.coins else p.coins + c.reward,
            if pay == Ledgered then Append(p.book, Payout(c)) else p.book)
  }

  ghost function PartsOf(catalog: ContractCatalog, goods: ResourceStorage, wallet: Wallet, ledger: EconomyLedger): Parts
    reads catalog, goods, wallet, ledger
  {
    Parts(catalog.contracts, goods.entries, wallet.coins, ledger.View())
  }

  // The three ways of being paid for a delivery out of any storage.
  method Deliver(catalog: ContractCatalog, id: string, goods: ResourceStorage, wallet: Wallet, ledger: EconomyLedger,
                 pay: Payment)
    modifies catalog, goods, wallet, ledger
    ensures PartsOf(catalog, goods, wallet, ledger)
            == AfterDelivery(old(PartsOf(catalog, goods, wallet, ledger)), id, pay)
  {
    hide CanDeliver, CanPay, CanSettle, Marked, Append, Payout;
    match pay {
      case Unpaid => var r := catalog.FulfillFromStorage(id, goods);
      case Rewarded => var r := catalog.FulfillWithReward(id, goods, wallet);
      case Ledgered => var r := catalog.FulfillWithRewardAndLedger(id, goods, wallet, ledger);
    }
  }

  method DeliverOnArrival(catalog: ContractCatalog, id: string, caravan: CaravanState, wallet: Wallet,
                          ledger: EconomyLedger, pay: Payment)
    modifies catalog, caravan.cargo, wallet, ledger
    ensures PartsOf(catalog, caravan.cargo, wallet, ledger) ==
      var before := old(PartsOf(catalog, caravan.cargo, wallet, ledger));
      if Arrived(old(caravan.View())) then AfterDelivery(before, id, pay) else before
  {
    hide CanDeliver, CanPay, CanSettle, Marked, Append, Payout;
    match pay {
      case Unpaid => var r := FulfillFromArrivedCaravan(catalog, id, caravan);
      case Rewarded => var r := RewardFromArrivedCaravan(catalog, id, caravan, wallet);
      case Ledgered => var r := SettleFromArrivedCaravan(catalog, id, caravan, wallet, ledger);
    }
  }

  method DeliverOnOwnedArrival(catalog: ContractCatalog, id: string, caravan: CaravanState, ownership: Owners,
                               faction: string, wallet: Wallet, ledger: EconomyLedger, pay: Payment)
    modifies catalog, caravan.cargo, wallet, ledger
    ensures PartsOf(catalog, caravan.cargo, wallet, ledger) ==
      var before := old(PartsOf(catalog, caravan.cargo, wallet, ledger));
      if OwnedBy(ownership, caravan.id, faction) && Arrived(old(caravan.View()))
      then AfterDelivery(before, id, pay) else before
  {
    hide CanDeliver, CanPay, CanSettle, Marked, Append, Payout, OwnedBy;
    match pay {
      case Unpaid => var r := FulfillFromOwnedArrivedCaravan(catalog, id, caravan, ownership, faction);
      case Rewarded => var r := RewardFromOwnedArrivedCaravan(catalog, id, caravan, ownership, faction, wallet);
      case Ledgered => var r := SettleFromOwnedArrivedCaravan(catalog, id, caravan, ownership, faction, wallet, ledger);
    }
  }

  lemma DeliveryIsStep(w: World, id: string, from: Origin, pay: Payment, after: Parts)
    requires Exists(w, PlaceOf(from))
    requires var before := Parts(w.contracts, Goods(w, PlaceOf(from)), w.coins, w.book);
      after == if Opens(w, from) then AfterDelivery(before, id, pay) else before
    ensures Step(w, Fulfill(id, from, pay)) == WithGoods(w, PlaceOf(from), after.stock).(
              coins := after.coins, contracts := after.contracts, book := after.book)
  {
    hide Opens, CanFulfill, Marked, Append, Payout;
    if !Delivers(w, id, from, pay) {
      var at := PlaceOf(from);
      assert WithGoods(w, at, Goods(w, at)) == w by { SameGoods(w, at); }
    }
  }

  lemma SameGoods(w: World, at: Place)
    requires Exists(w, at)
    ensures WithGoods(w, at, Goods(w, at)) == w
  {
  }

  method PerformDelivery(wallet: Wallet, towns: seq<SettlementState>, caravans: seq<CaravanState>,
                         catalog: ContractCatalog, ledger: EconomyLedger, id: string, from: Origin, pay: Payment)
    requires Apart(towns, caravans)
    modifies wallet, catalog, Engine.Stores(towns), Cargos(caravans), ledger
    ensures View(wallet, towns, caravans, catalog, ledger)
            == Step(old(View(wallet, towns, caravans, catalog, ledger)), Fulfill(id, from, pay))
  {
    ghost var before := View(wallet, towns, caravans, catalog, ledger);
    if !(match PlaceOf(from) case Town(i) => i < |towns| case Cargo(k) => k < |caravans|) { return; }
    hide AfterDelivery, OwnedBy, Step;
    match from {
      case Directly(at) => Deliver(catalog, id, StoreAt(towns, caravans, at), wallet, ledger, pay);
      case OnArrival(k) => DeliverOnArrival(catalog, id, caravans[k], wallet, ledger, pay);
      case OnOwnedArrival(k, o, faction) =>
        DeliverOnOwnedArrival(catalog, id, caravans[k], o, faction, wallet, ledger, pay);
    }
    OneStoreChanged(before, towns, caravans, PlaceOf(from));
    DeliveryIsStep(before, id, from, pay, PartsOf(catalog, StoreAt(towns, caravans, PlaceOf(from)), wallet, ledger));
  }

  lemma TwoStoresChanged(before: World, towns: seq<SettlementState>, caravans: seq<CaravanState>, i: nat, k: nat)
    requires |towns| == |before.towns| && |caravans| == |before.caravans| && i < |towns| && k < |caravans|
    requires forall j :: 0 <= j < |towns| && j != i ==> towns[j].View() == before.towns[j]
    requires forall j :: 0 <= j < |caravans| && j != k ==> caravans[j].View() == before.caravans[j]
    requires towns[i].View() == before.towns[i].(storage := towns[i].storage.entries)
    requires caravans[k].View() == before.caravans[k].(cargo := caravans[k].cargo.entries)
    ensures Engine.Views(towns) == before.towns[i := before.towns[i].(storage := towns[i].storage.entries)]
    ensures CaravanViews(caravans) == before.caravans[k := before.caravans[k].(cargo := caravans[k].cargo.entries)]
  {
  }

  method PerformLoad(wallet: Wallet, towns: seq<SettlementState>, caravans: seq<CaravanState>,
                     catalog: ContractCatalog, ledger: EconomyLedger, k: nat, i: nat, r: string, n: u64)
    requires Apart(towns, caravans) && k < |caravans| && i < |towns|
    modifies Engine.Stores(towns), Cargos(caravans)
    ensures View(wallet, towns, caravans, catalog, ledger)
            == Step(old(View(wallet, towns, caravans, catalog, ledger)), Load(k, i, r, n))
  {
    hide CanLoad, CanAdd, CanRemove, Added, Removed;
    ghost var before := View(wallet, towns, caravans, catalog, ledger);
    var errors := LoadAtOrigin(caravans[k], towns[i], r, n);
    TwoStoresChanged(before, towns, caravans, i, k);
  }

  method PerformUnload(wallet: Wallet, towns: seq<SettlementState>, caravans: seq<CaravanState>,
                       catalog: ContractCatalog, ledger: EconomyLedger, k: nat, i: nat, r: string, n: u64)
    requires Apart(towns, caravans) && k < |caravans| && i < |towns|
    modifies Engine.Stores(towns), Cargos(caravans)
    ensures View(wallet, towns, caravans, catalog, ledger)
            == Step(old(View(wallet, towns, caravans, catalog, ledger)), Unload(k, i, r, n))
  {
    hide CanUnload, CanAdd, CanRemove, Added, Removed;
    ghost var before := View(wallet, towns, caravans, catalog, ledger);
    var errors := UnloadAtDestination(caravans[k], towns[i], r, n);
    TwoStoresChanged(before, towns, caravans, i, k);
  }

  // Adding, marking and sweeping contracts, and letting a caravan travel.
  method PerformOther(wallet: Wallet, towns: seq<SettlementState>, caravans: seq<CaravanState>,
                      catalog: ContractCatalog, ledger: EconomyLedger, op: Op)
    requires Apart(towns, caravans) && (op.Add? || op.Mark? || op.Sweep? || op.Go?)
    modifies catalog, caravans
    ensures View(wallet, towns, caravans, catalog, ledger)
            == Step(old(View(wallet, towns, caravans, catalog, ledger)), op)
  {
    hide CanAddContract, Dated, IsOpen, Marked, Swept, AfterTicks;
    match op {
      case Add(c) => var errors := catalog.AddContract(c);
      case Mark(id, status) => var errors := catalog.MarkStatus(id, status);
      case Sweep(tick) => var report := catalog.FailOverdue(tick);
      case Go(k, ticks) => if k < |caravans| { var report := caravans[k].AdvanceTicks(ticks); }
    }
  }

  // One operation performed on the objects.
  method Perform(wallet: Wallet, towns: seq<SettlementState>, caravans: seq<CaravanState>,
                 catalog: ContractCatalog, ledger: EconomyLedger, op: Op)
    requires Apart(towns, caravans)
    modifies wallet, catalog, Engine.Stores(towns), caravans, Cargos(caravans), ledger
    ensures View(wallet, towns, caravans, catalog, ledger)
            == Step(old(View(wallet, towns, caravans, catalog, ledger)), op)
  {
    hide Deals, Dealt, Delivers, Delivered, CanLoad, CanUnload, Moved, AfterTicks, Marked, Swept, Dated, IsOpen;
    match op {
      case Deal(at, kind, p, q, note) => PerformDeal(wallet, towns, caravans, catalog, ledger, at, kind, p, q, note);
      case Fulfill(id, from, pay) => PerformDelivery(wallet, towns, caravans, catalog, ledger, id, from, pay);
      case Load(k, i, r, n) =>
        if k < |caravans| && i < |towns| { PerformLoad(wallet, towns, caravans, catalog, ledger, k, i, r, n); }
      case Unload(k, i, r, n) =>
        if k < |caravans| && i < |towns| { PerformUnload(wallet, towns, caravans, catalog, ledger, k, i, r, n); }
      case _ => PerformOther(wallet, towns, caravans, catalog, ledger, op);
    }
  }

  // ---- money and goods reconcile with the ledger ----

  ghost function Spent(b: Book): int {
    Turnover(b.entries, Buy) - Turnover(b.entries, Sell) - Turnover(b.entries, ContractReward)
  }

  ghost function Shipped(b: Book, r: string): int {
    Quantity(b.entries, Sell, r) + Quantity(b.entries, ContractReward, r) - Quantity(b.entries, Buy, r)
  }

  lemma AppendSums(b: Book, e: Entry, kind: EntryType, r: string)
    requires b.next != U64_MAX
    ensures var b' := Append(b, e);
      && Turnover(b'.entries, kind) == Turnover(b.entries, kind) + (if e.kind == kind then e.totalPrice else 0)
      && Quantity(b'.entries, kind, r) == Quantity(b.entries, kind, r)
         + (if e.kind == kind && e.resourceId == r then e.quantity else 0)
  {
    var b' := Append(b, e);
    assert b'.entries[..|b.entries|] == b.entries;
  }

  lemma AppendBalances(b: Book, e: Entry, r: string)
    requires b.next != U64_MAX
    ensures Spent(Append(b, e)) == Spent(b) + (if e.kind == Buy then 1 else -1) * e.totalPrice
    ensures Shipped(Append(b, e), r) == Shipped(b, r) +
      (if e.resourceId != r then 0 else if e.kind == Buy then -1 else 1) * e.quantity
  {
    AppendSums(b, e, Buy, r);
    AppendSums(b, e, Sell, r);
    AppendSums(b, e, ContractReward, r);
  }

  // ---- all the goods there are ----

  function Stocks(w: World): seq<Stock> {
    Storages(w.towns) + seq(|w.caravans|, k requires 0 <= k < |w.caravans| => w.caravans[k].cargo)
  }

  function HeldAll(w: World, r: string): nat { HeldIn(Stocks(w), r) }

  lemma HeldAfter(w: World, at: Place, stock: Stock, r: string)
    requires Exists(w, at)
    ensures HeldAll(WithGoods(w, at, stock), r) == HeldAll(w, r) - Amount(Goods(w, at), r) + Amount(stock, r)
  {
    var index := match at case Town(i) => i case Cargo(k) => |w.towns| + k;
    HeldInUpdated(Stocks(w), index, stock, r);
    assert Stocks(WithGoods(w, at, stock)) == Stocks(w)[index := stock];
  }

  lemma SameStocks(v: World, w: World, r: string)
    requires v.towns == w.towns && v.caravans == w.caravans
    ensures HeldAll(v, r) == HeldAll(w, r)
  {
  }

  lemma MoveKeepsHeld(w: World, from: Place, to: Place, r: string, n: u64, q: string)
    requires from != to && Exists(w, from) && Exists(w, to)
    requires CanRemove(Goods(w, from), r, n) && CanAdd(Goods(w, to), r, n)
    ensures HeldAll(Moved(w, from, to, r, n), q) == HeldAll(w, q)
  {
    var mid := WithGoods(w, from, Removed(Goods(w, from), r, n));
    assert Goods(mid, to) == Goods(w, to);
    HeldAfter(w, from, Removed(Goods(w, from), r, n), q);
    HeldAfter(mid, to, Added(Goods(w, to), r, n), q);
    MoveConserves(Goods(w, from), Goods(w, to), r, n, q);
  }

  // ---- what the ledger does not know of ----

  // A reward paid, and goods delivered, without an entry.
  function OffCoins(w: World, op: Op): nat {
    if op.Fulfill? && op.pay == Rewarded && Delivers(w, op.id, op.from, op.pay) then Terms(w, op.id).reward else 0
  }

  function OffGoods(w: World, op: Op, r: string): nat {
    if op.Fulfill? && op.pay != Ledgered && Delivers(w, op.id, op.from, op.pay) && Terms(w, op.id).resourceId == r
    then Terms(w, op.id).quantity else 0
  }

  // The contract so delivered.
  function OffLedger(w: World, op: Op): set<string> {
    if op.Fulfill? && op.pay != Ledgered && Delivers(w, op.id, op.from, op.pay) then {op.id} else {}
  }

  function AllOffLedger(w: World, ops: seq<Op>): set<string>
    decreases |ops|
  {
    if ops == [] then {} else OffLedger(w, ops[0]) + AllOffLedger(Step(w, ops[0]), ops[1..])
  }

  function AllOffCoins(w: World, ops: seq<Op>): nat
    decreases |ops|
  {
    if ops == [] then 0 else OffCoins(w, ops[0]) + AllOffCoins(Step(w, ops[0]), ops[1..])
  }

  function AllOffGoods(w: World, ops: seq<Op>, r: string): nat
    decreases |ops|
  {
    if ops == [] then 0 else OffGoods(w, ops[0], r) + AllOffGoods(Step(w, ops[0]), ops[1..], r)
  }

  lemma DealReconciles(w: World, at: Place, kind: EntryType, p: MarketPrice, q: u64, note: string, r: string)
    requires Deals(w, at, kind, p, q)
    ensures var w' := Dealt(w, at, kind, p, q, note);
      && w'.coins + Spent(w'.book) == w.coins + Spent(w.book)
      && HeldAll(w', r) + Shipped(w'.book, r) == HeldAll(w, r) + Shipped(w.book, r)
  {
    hide HeldAll, Spent, Shipped, Append, WithGoods;
    var stock := Goods(w, at);
    var after := if kind == Buy then Added(stock, p.resourceId, q) else Removed(stock, p.resourceId, q);
    AppendBalances(w.book, TradeEntry(kind, Done(p, q), note), r);
    AmountAfter(stock, p.resourceId, q, r);
    HeldAfter(w, at, after, r);
    SameStocks(Dealt(w, at, kind, p, q, note), WithGoods(w, at, after), r);
  }

  lemma DeliveryReconciles(w: World, id: string, from: Origin, pay: Payment, r: string)
    requires Delivers(w, id, from, pay)
    ensures var op, w' := Fulfill(id, from, pay), Delivered(w, id, from, pay);
      && w'.coins + Spent(w'.book) == w.coins + Spent(w.book) + OffCoins(w, op)
      && HeldAll(w', r) + Shipped(w'.book, r) + OffGoods(w, op, r) == HeldAll(w, r) + Shipped(w.book, r)
  {
    var c, at := Terms(w, id), PlaceOf(from);
    var after := Removed(Goods(w, at), c.resourceId, c.quantity);
    hide HeldAll, Spent, Shipped, Append, WithGoods, Marked;
    if pay == Ledgered { AppendBalances(w.book, Payout(c), r); }
    AmountAfter(Goods(w, at), c.resourceId, c.quantity, r);
    HeldAfter(w, at, after, r);
    SameStocks(Delivered(w, id, from, pay), WithGoods(w, at, after), r);
  }

  lemma StepReconciles(w: World, op: Op, r: string)
    ensures var w' := Step(w, op);
      && w'.coins + Spent(w'.book) == w.coins + Spent(w.book) + OffCoins(w, op)
      && HeldAll(w', r) + Shipped(w'.book, r) + OffGoods(w, op, r) == HeldAll(w, r) + Shipped(w.book, r)
  {
    hide HeldAll, Spent, Shipped, Dealt, Delivered, Deals, Delivers, Moved, Marked, Swept;
    match op {
      case Deal(at, kind, p, q, note) => if Deals(w, at, kind, p, q) { DealReconciles(w, at, kind, p, q, note, r); }
      case Fulfill(id, from, pay) => if Delivers(w, id, from, pay) { DeliveryReconciles(w, id, from, pay, r); }
      case Load(k, i, x, n) => if Loads(w, k, i, x, n) { LoadKeepsHeld(w, k, i, x, n, r); }
      case Unload(k, i, x, n) => if Unloads(w, k, i, x, n) { UnloadKeepsHeld(w, k, i, x, n, r); }
      case Go(k, ticks) => if k < |w.caravans| { GoingKeepsHeld(w, k, ticks, r); }
      case _ => SameStocks(Step(w, op), w, r);
    }
  }

  lemma LoadKeepsHeld(w: World, k: nat, i: nat, x: string, n: u64, r: string)
    requires Loads(w, k, i, x, n)
    ensures var w' := Moved(w, Town(i), Cargo(k), x, n);
      HeldAll(w', r) == HeldAll(w, r) && w'.book == w.book && w'.coins == w.coins
  {
    MoveKeepsHeld(w, Town(i), Cargo(k), x, n, r);
  }

  lemma UnloadKeepsHeld(w: World, k: nat, i: nat, x: string, n: u64, r: string)
    requires Unloads(w, k, i, x, n)
    ensures var w' := Moved(w, Cargo(k), Town(i), x, n);
      HeldAll(w', r) == HeldAll(w, r) && w'.book == w.book && w'.coins == w.coins
  {
    MoveKeepsHeld(w, Cargo(k), Town(i), x, n, r);
  }

  lemma GoingKeepsHeld(w: World, k: nat, ticks: u64, r: string)
    requires k < |w.caravans|
    ensures HeldAll(w.(caravans := w.caravans[k := AfterTicks(w.caravans[k], ticks)]), r) == HeldAll(w, r)
  {
    var w' := w.(caravans := w.caravans[k := AfterTicks(w.caravans[k], ticks)]);
    assert Stocks(w') == Stocks(w);
  }

  // Over any run, coins plus purchases equal initial coins plus sales, recorded rewards and rewards paid
  // off the ledger; and of each resource, what all towns and caravans hold, plus sales, recorded
  // deliveries and deliveries off the ledger, equals what they held plus purchases.
  lemma {:induction false} RunReconciles(w: World, ops: seq<Op>, r: string)
    ensures var end := Run(w, ops);
      && end.coins + Spent(end.book) == w.coins + Spent(w.book) + AllOffCoins(w, ops)
      && HeldAll(end, r) + Shipped(end.book, r) + AllOffGoods(w, ops, r) == HeldAll(w, r) + Shipped(w.book, r)
    decreases |ops|
  {
    hide HeldAll, Spent, Shipped, Step, OffCoins, OffGoods;
    if ops != [] {
      StepReconciles(w, ops[0], r);
      RunReconciles(Step(w, ops[0]), ops[1..], r);
    }
  }

  // ---- contracts ----

  function CatalogAfter(w: World, op: Op): Catalog {
    match op
    case Fulfill(id, from, pay) =>
      if Delivers(w, id, from, pay) then Marked(w.contracts, id, Fulfilled) else w.contracts
    case Add(c) => if CanAddContract(w.contracts, c) then w.contracts + [Dated(c)] else w.contracts
    case Mark(id, status) => if IsOpen(w.contracts, id) then Marked(w.contracts, id, status) else w.contracts
    case Sweep(tick) => Swept(w.contracts, tick)
    case _ => w.contracts
  }

  function BookAfter(w: World, op: Op): Book {
    match op
    case Deal(at, kind, p, q, note) =>
      if Deals(w, at, kind, p, q) then Append(w.book, TradeEntry(kind, Done(p, q), note)) else w.book
    case Fulfill(id, from, pay) =>
      if pay == Ledgered && Delivers(w, id, from, pay) then Append(w.book, Payout(Terms(w, id))) else w.book
    case _ => w.book
  }

  lemma StepAfter(w: World, op: Op)
    ensures Step(w, op).contracts == CatalogAfter(w, op) && Step(w, op).book == BookAfter(w, op)
  {
    hide Deals, Delivers, Append, Payout, TradeEntry, Marked, Swept, Loads, Unloads, Goods;
  }

  predicate DistinctIds(cs: Catalog) { forall i, j :: 0 <= i < j < |cs| ==> cs[i].id != cs[j].id }

  ghost predicate Sound(w: World) {
    && DistinctIds(w.contracts)
    && (forall i :: 0 <= i < |w.contracts| ==> ValidContract(w.contracts[i]))
    && Sequenced(w.book)
  }

  lemma StepKeepsSound(w: World, op: Op)
    requires Sound(w)
    ensures Sound(Step(w, op))
  {
    StepAfter(w, op);
    CatalogStaysSound(w, op);
    BookStaysSequenced(w, op);
    hide Step, CatalogAfter, BookAfter, Sequenced, DistinctIds;
  }

  lemma CatalogStaysSound(w: World, op: Op)
    requires Sound(w)
    ensures var cs := CatalogAfter(w, op); DistinctIds(cs) && forall i :: 0 <= i < |cs| ==> ValidContract(cs[i])
  {
    hide Opens, Goods, Sequenced;
    match op {
      case Add(c) =>
        if CanAddContract(w.contracts, c) {
          assert Dated(c).id == c.id;
        }
      case _ =>
    }
  }

  lemma BookStaysSequenced(w: World, op: Op)
    requires Sound(w)
    ensures Sequenced(BookAfter(w, op))
  {
    assert w.book.next > 0;
    hide Sequenced, ValidContract, Opens, Goods;
    match op {
      case Deal(at, kind, p, q, note) =>
        if Deals(w, at, kind, p, q) {
          CostIsPositive(p, q);
          RecordingKeepsSequence(w.book, TradeEntry(kind, Done(p, q), note));
        }
      case Fulfill(id, from, pay) =>
        if pay == Ledgered && Delivers(w, id, from, pay) { RecordingKeepsSequence(w.book, Payout(Terms(w, id))); }
      case _ =>
    }
  }

  // Contracts keep their place and terms; once terminal, they keep their status.
  ghost predicate Continues(before: Catalog, after: Catalog) {
    && |before| <= |after|
    && forall i :: 0 <= i < |before| ==>
         && after[i].(status := before[i].status) == before[i]
         && (before[i].status != Open ==> after[i] == before[i])
  }

  lemma StepContinues(w: World, op: Op)
    ensures Continues(w.contracts, Step(w, op).contracts)
  {
    StepAfter(w, op);
    hide Step, Opens, Goods;
  }

  lemma {:induction false} TerminalContractsStay(w: World, ops: seq<Op>)
    ensures Continues(w.contracts, Run(w, ops).contracts)
    decreases |ops|
  {
    hide Step;
    if ops != [] {
      StepContinues(w, ops[0]);
      TerminalContractsStay(Step(w, ops[0]), ops[1..]);
    }
  }

  lemma SweepLeavesNoneOverdue(w: World, tick: u64)
    ensures var cs := Step(w, Sweep(tick)).contracts;
            forall i :: 0 <= i < |cs| ==> !Overdue(cs[i], tick)
  {
  }

  // ---- payouts ----

  function RewardRefs(entries: seq<Entry>): seq<string> {
    if entries == [] then []
    else
      var e := entries[|entries| - 1];
      RewardRefs(entries[..|entries| - 1]) + if e.kind == ContractReward then [e.referenceId] else []
  }

  // The contracts that were fulfilled, by id.
  predicate FulfilledId(cs: Catalog, id: string) {
    exists i :: 0 <= i < |cs| && cs[i].id == id && cs[i].status == Fulfilled
  }

  // The reward entry repeats the terms of a fulfilled contract.
  ghost predicate PaysFor(e: Entry, cs: Catalog) {
    exists i :: 0 <= i < |cs| && cs[i].status == Fulfilled && cs[i].id == e.referenceId
      && cs[i].resourceId == e.resourceId && cs[i].quantity == e.quantity && cs[i].reward == e.totalPrice
  }

  predicate Once(refs: seq<string>) { forall i, j :: 0 <= i < j < |refs| ==> refs[i] != refs[j] }

  // Reward entries name distinct fulfilled contracts and repeat their terms; the fulfilled contracts
  // are those named, plus `bare`: the ones marked fulfilled without a payout.
  ghost predicate Paid(w: World, bare: set<string>) {
    && Once(RewardRefs(w.book.entries))
    && (forall k :: 0 <= k < |w.book.entries| && w.book.entries[k].kind == ContractReward ==>
          PaysFor(w.book.entries[k], w.contracts))
    && (forall id :: FulfilledId(w.contracts, id) <==> id in RewardRefs(w.book.entries) || id in bare)
    && (forall id :: id in bare ==> id !in RewardRefs(w.book.entries))
  }

  // Ids fulfilled without a ledger entry: marked directly, or delivered off the ledger.
  function BareStep(w: World, op: Op): set<string> {
    match op
    case Mark(id, status) => if status == Fulfilled && IsOpen(w.contracts, id) then {id} else {}
    case _ => OffLedger(w, op)
  }

  function Bare(w: World, ops: seq<Op>): set<string>
    decreases |ops|
  {
    if ops == [] then {} else BareStep(w, ops[0]) + Bare(Step(w, ops[0]), ops[1..])
  }

  lemma FulfilledAfterMark(cs: Catalog, id: string, status: Status, x: string)
    requires DistinctIds(cs) && IsOpen(cs, id)
    ensures FulfilledId(Marked(cs, id, status), x) <==> FulfilledId(cs, x) || (x == id && status == Fulfilled)
    ensures !FulfilledId(cs, id)
  {
    var k, cs' := Find(cs, id), Marked(cs, id, status);
    assert cs'[k].id == id && cs'[k].status == status;
    if FulfilledId(cs, x) {
      var i :| 0 <= i < |cs| && cs[i].id == x && cs[i].status == Fulfilled;
      assert cs'[i] == cs[i];
    }
    if FulfilledId(cs', x) {
      var i :| 0 <= i < |cs'| && cs'[i].id == x && cs'[i].status == Fulfilled;
      if i != k { assert cs[i] == cs'[i]; }
    }
  }

  lemma FulfilledAfterSweep(cs: Catalog, tick: u64, x: string)
    ensures FulfilledId(Swept(cs, tick), x) <==> FulfilledId(cs, x)
  {
    var cs' := Swept(cs, tick);
    assert forall i :: 0 <= i < |cs| ==>
      cs'[i].id == cs[i].id && (cs'[i].status == Fulfilled <==> cs[i].status == Fulfilled);
  }

  lemma FulfilledAfterAdd(cs: Catalog, c: Contract, x: string)
    requires c.status == Open
    ensures FulfilledId(cs + [c], x) <==> FulfilledId(cs, x)
  {
    var cs' := cs + [c];
    assert forall i :: 0 <= i < |cs| ==> cs'[i] == cs[i];
  }

  lemma PaysForContinues(e: Entry, before: Catalog, after: Catalog)
    requires PaysFor(e, before) && Continues(before, after)
    ensures PaysFor(e, after)
  {
    var i :| 0 <= i < |before| && before[i].status == Fulfilled && before[i].id == e.referenceId
      && before[i].resourceId == e.resourceId && before[i].quantity == e.quantity && before[i].reward == e.totalPrice;
    assert after[i] == before[i];
  }

  lemma RefsSnoc(b: Book, e: Entry)
    requires b.next != U64_MAX
    ensures RewardRefs(Append(b, e).entries)
            == RewardRefs(b.entries) + if e.kind == ContractReward then [e.referenceId] else []
  {
    assert Append(b, e).entries[..|b.entries|] == b.entries;
  }

  // A step without a new ledger entry for a reward.
  lemma UnpaidStep(w: World, w': World, bare: set<string>, marked: set<string>)
    requires Sound(w) && Paid(w, bare) && Continues(w.contracts, w'.contracts)
    requires w'.book == w.book
      || (exists e: Entry :: e.kind != ContractReward && w.book.next != U64_MAX && w'.book == Append(w.book, e))
    requires forall x :: FulfilledId(w'.contracts, x) <==> FulfilledId(w.contracts, x) || x in marked
    requires forall x :: x in marked ==> !FulfilledId(w.contracts, x)
    ensures Paid(w', bare + marked)
  {
    hide ValidContract, Sequenced;
    if w'.book != w.book {
      var e: Entry :| e.kind != ContractReward && w.book.next != U64_MAX && w'.book == Append(w.book, e);
      RefsSnoc(w.book, e);
      assert RewardRefs(w.book.entries) + [] == RewardRefs(w.book.entries);
    }
    forall k | 0 <= k < |w'.book.entries| && w'.book.entries[k].kind == ContractReward
      ensures PaysFor(w'.book.entries[k], w'.contracts)
    {
      assert w'.book.entries[k] == w.book.entries[k];
      PaysForContinues(w.book.entries[k], w.contracts, w'.contracts);
    }
  }

  // A step that fulfils one contract and records its reward.
  lemma PaidStep(w: World, w': World, e: Entry, bare: set<string>)
    requires Paid(w, bare) && Continues(w.contracts, w'.contracts)
    requires e.kind == ContractReward && w.book.next != U64_MAX && w'.book == Append(w.book, e)
    requires PaysFor(e, w'.contracts) && !FulfilledId(w.contracts, e.referenceId)
    requires forall x :: FulfilledId(w'.contracts, x) <==> FulfilledId(w.contracts, x) || x == e.referenceId
    ensures Paid(w', bare)
  {
    RefsSnoc(w.book, e);
    hide Continues, FulfilledId;
    var k := |w.book.entries|;
    assert PaysFor(w'.book.entries[k], w'.contracts);
    forall m | 0 <= m < k && w'.book.entries[m].kind == ContractReward
      ensures PaysFor(w'.book.entries[m], w'.contracts)
    {
      assert w'.book.entries[m] == w.book.entries[m];
      PaysForContinues(w.book.entries[m], w.contracts, w'.contracts);
    }
  }

  lemma DeliveryFulfills(w: World, id: string, from: Origin, pay: Payment)
    requires Delivers(w, id, from, pay)
    ensures IsOpen(w.contracts, id) && CatalogAfter(w, Fulfill(id, from, pay)) == Marked(w.contracts, id, Fulfilled)
    ensures Terms(w, id).id == id && PaysFor(Payout(Terms(w, id)), Marked(w.contracts, id, Fulfilled))
    ensures pay == Ledgered ==> w.book.next != U64_MAX
  {
    hide Opens, Goods;
    var cs' := Marked(w.contracts, id, Fulfilled);
    assert cs'[Find(w.contracts, id)].status == Fulfilled;
  }

  // A step that fulfils at most the contracts named, and records no reward.
  lemma QuietStepKeepsPaid(w: World, op: Op, bare: set<string>)
    requires Sound(w) && Paid(w, bare) && (op.Fulfill? ==> op.pay != Ledgered)
    ensures Paid(Step(w, op), bare + BareStep(w, op))
  {
    assert DistinctIds(w.contracts);
    StepAfter(w, op);
    StepContinues(w, op);
    if op.Fulfill? && Delivers(w, op.id, op.from, op.pay) { DeliveryFulfills(w, op.id, op.from, op.pay); }
    if op.Deal? && Deals(w, op.at, op.kind, op.price, op.quantity) { TradesPayNobody(w, op); }
    hide Paid, Sound, FulfilledId, Continues, DistinctIds, Marked, Swept, Step, Delivers, Deals, IsOpen,
         CanAddContract, TradeEntry;
    forall x ensures FulfilledId(CatalogAfter(w, op), x) <==> FulfilledId(w.contracts, x) || x in BareStep(w, op) {
      FulfilledAfterStep(w, op, x);
    }
    forall x | x in BareStep(w, op) ensures !FulfilledId(w.contracts, x) { FulfilledAfterStep(w, op, x); }
    UnpaidStep(w, Step(w, op), bare, BareStep(w, op));
  }

  lemma TradesPayNobody(w: World, op: Op)
    requires op.Deal? && Deals(w, op.at, op.kind, op.price, op.quantity)
    ensures w.book.next != U64_MAX
    ensures exists e: Entry :: e.kind != ContractReward && BookAfter(w, op) == Append(w.book, e)
  {
    var e := TradeEntry(op.kind, Done(op.price, op.quantity), op.note);
    assert e.kind != ContractReward && BookAfter(w, op) == Append(w.book, e);
  }

  lemma FulfilledAfterStep(w: World, op: Op, x: string)
    requires DistinctIds(w.contracts) && (op.Fulfill? ==> op.pay != Ledgered)
    ensures FulfilledId(CatalogAfter(w, op), x) <==> FulfilledId(w.contracts, x) || x in BareStep(w, op)
    ensures x in BareStep(w, op) ==> !FulfilledId(w.contracts, x)
  {
    hide DistinctIds, FulfilledId, Marked, Swept, Opens, Goods;
    match op {
      case Fulfill(id, from, pay) =>
        if Delivers(w, id, from, pay) { FulfilledAfterMark(w.contracts, id, Fulfilled, x); }
      case Mark(id, status) => if IsOpen(w.contracts, id) { FulfilledAfterMark(w.contracts, id, status, x); }
      case Add(c) => if CanAddContract(w.contracts, c) { FulfilledAfterAdd(w.contracts, Dated(c), x); }
      case Sweep(tick) => FulfilledAfterSweep(w.contracts, tick, x);
      case _ =>
    }
  }

  lemma PayoutKeepsPaid(w: World, id: string, from: Origin, bare: set<string>)
    requires Sound(w) && Paid(w, bare) && Delivers(w, id, from, Ledgered)
    ensures Paid(Step(w, Fulfill(id, from, Ledgered)), bare)
  {
    var op := Fulfill(id, from, Ledgered);
    StepAfter(w, op);
    StepContinues(w, op);
    DeliveryFulfills(w, id, from, Ledgered);
    assert DistinctIds(w.contracts);
    assert Step(w, op).book == Append(w.book, Payout(Terms(w, id))) && Payout(Terms(w, id)).referenceId == id;
    hide Paid, Sound, DistinctIds, FulfilledId, Continues, PaysFor, Marked, Step, Delivers;
    forall x ensures FulfilledId(CatalogAfter(w, op), x) <==> FulfilledId(w.contracts, x) || x == id {
      FulfilledAfterMark(w.contracts, id, Fulfilled, x);
    }
    FulfilledAfterMark(w.contracts, id, Fulfilled, id);
    PaidStep(w, Step(w, op), Payout(Terms(w, id)), bare);
  }

  lemma StepKeepsPaid(w: World, op: Op, bare: set<string>)
    requires Sound(w) && Paid(w, bare)
    ensures Paid(Step(w, op), bare + BareStep(w, op))
  {
    assert bare + {} == bare;
    if op.Fulfill? && op.pay == Ledgered {
      if Delivers(w, op.id, op.from, op.pay) { PayoutKeepsPaid(w, op.id, op.from, bare); }
    } else {
      QuietStepKeepsPaid(w, op, bare);
    }
  }

  lemma {:induction false} RunKeepsPaid(w: World, ops: seq<Op>, bare: set<string>)
    requires Sound(w) && Paid(w, bare)
    ensures Sound(Run(w, ops)) && Paid(Run(w, ops), bare + Bare(w, ops))
    decreases |ops|
  {
    hide Sound, Paid, Step, BareStep;
    if ops == [] {
      assert bare + {} == bare;
    } else {
      StepKeepsSound(w, ops[0]);
      StepKeepsPaid(w, ops[0], bare);
      RunKeepsPaid(Step(w, ops[0]), ops[1..], bare + BareStep(w, ops[0]));
      assert bare + BareStep(w, ops[0]) + Bare(Step(w, ops[0]), ops[1..]) == bare + Bare(w, ops);
    }
  }

  // Goods that leave off the ledger leave in some amount of some resource, and only such goods do.
  lemma {:induction false} OffLedgerShows(w: World, ops: seq<Op>) returns (r: string)
    requires Sound(w)
    ensures AllOffLedger(w, ops) != {} ==> AllOffGoods(w, ops, r) > 0
    ensures AllOffLedger(w, ops) == {} ==> AllOffCoins(w, ops) == 0 && forall x :: AllOffGoods(w, ops, x) == 0
    decreases |ops|
  {
    r := "";
    if ops != [] {
      StepKeepsSound(w, ops[0]);
      r := OffLedgerShows(Step(w, ops[0]), ops[1..]);
      hide Step;
      if OffLedger(w, ops[0]) != {} {
        r := Terms(w, ops[0].id).resourceId;
        assert ValidContract(Terms(w, ops[0].id));
      }
    }
  }

  // The ledger accounts for every resource if and only if nothing was delivered off it.
  lemma GoodsReconcileExactly(w: World, ops: seq<Op>)
    requires Sound(w)
    ensures (forall r: string ::
              HeldAll(Run(w, ops), r) + Shipped(Run(w, ops).book, r) == HeldAll(w, r) + Shipped(w.book, r))
            <==> AllOffLedger(w, ops) == {}
  {
    hide HeldAll, Shipped, Run, Sound;
    forall r: string
      ensures HeldAll(Run(w, ops), r) + Shipped(Run(w, ops).book, r) + AllOffGoods(w, ops, r)
              == HeldAll(w, r) + Shipped(w.book, r)
    {
      RunReconciles(w, ops, r);
    }
    var q := OffLedgerShows(w, ops);
  }

  // A world in which nothing has been contracted or recorded yet.
  predicate Fresh(w: World) { w.contracts == [] && w.book == EMPTY_BOOK }

  // Payouts and fulfilled contracts correspond one to one.
  ghost predicate PaidExactlyOnce(w: World) {
    && Once(RewardRefs(w.book.entries))
    && (forall k :: 0 <= k < |w.book.entries| && w.book.entries[k].kind == ContractReward ==>
          PaysFor(w.book.entries[k], w.contracts))
    && (forall id :: FulfilledId(w.contracts, id) <==> id in RewardRefs(w.book.entries))
  }

  // From a fresh world every payout is for one fulfilled contract, on its terms, and never repeated;
  // every fulfilled contract was paid if and only if none was marked fulfilled directly or delivered off
  // the ledger.
  lemma PaidExactlyOnceExactly(w: World, ops: seq<Op>)
    requires Fresh(w)
    ensures var end := Run(w, ops);
      && Sound(end) && Paid(end, Bare(w, ops))
      && (PaidExactlyOnce(end) <==> Bare(w, ops) == {})
  {
    RunKeepsPaid(w, ops, {});
    var end, bare := Run(w, ops), Bare(w, ops);
    assert {} + bare == bare;
    if bare != {} {
      var id :| id in bare;
      assert FulfilledId(end.contracts, id) && id !in RewardRefs(end.book.entries);
    }
  }

  // Five grain are due and in stock; delivering them without a ledger entry fulfils the contract for good.
  lemma QuietDeliveryIsNotPaid()
    ensures var c := Contract("c", "C", "a", "b", "grain", 5, 1, 1, 0, Open);
      var w := World(0, [Settlement("t", "T", 0, map["grain" := 5], [], [])], [], [], EMPTY_BOOK);
      Fresh(w) && !PaidExactlyOnce(Run(w, [Op.Add(c), Fulfill("c", Directly(Town(0)), Unpaid)]))
  {
    var c := Contract("c", "C", "a", "b", "grain", 5, 1, 1, 0, Open);
    var w := World(0, [Settlement("t", "T", 0, map["grain" := 5], [], [])], [], [], EMPTY_BOOK);
    var op := Fulfill("c", Directly(Town(0)), Unpaid);
    var ops := [Op.Add(c), op];
    var next := Step(w, Op.Add(c));
    assert CanAddContract([], c);
    AddedIsFound([], Dated(c));
    assert next.contracts == [Dated(c)] && Delivers(next, "c", Directly(Town(0)), Unpaid);
    assert ops[1..] == [op] && "c" in BareStep(next, op);
    hide Step, BareStep, PaidExactlyOnce, Delivers;
    assert "c" in Bare(w, ops);
    PaidExactlyOnceExactly(w, ops);
  }

  // ---- contracts that can no longer be paid ----

  predicate Terminal(cs: Catalog, id: string) { Find(cs, id) < |cs| && cs[Find(cs, id)].status != Open }

  lemma FindStays(before: Catalog, after: Catalog, id: string)
    requires Continues(before, after) && Terminal(before, id)
    ensures Terminal(after, id)
  {
    var i := Find(before, id);
    assert after[i] == before[i];
    assert forall j :: 0 <= j < i ==> after[j].id == before[j].id;
  }

  // How many payouts name a contract.
  function Payouts(entries: seq<Entry>, id: string): nat { multiset(RewardRefs(entries))[id] }

  lemma EntryPaysNobodyElse(b: Book, e: Entry, id: string)
    requires b.next != U64_MAX && (e.kind == ContractReward ==> e.referenceId != id)
    ensures Payouts(Append(b, e).entries, id) == Payouts(b.entries, id)
  {
    RefsSnoc(b, e);
    if e.kind != ContractReward { assert RewardRefs(b.entries) + [] == RewardRefs(b.entries); }
    hide RewardRefs, Append;
  }

  lemma BookPaysNoTerminal(w: World, op: Op, id: string)
    requires Terminal(w.contracts, id)
    ensures Payouts(BookAfter(w, op).entries, id) == Payouts(w.book.entries, id)
  {
    hide Payouts, RewardRefs, Goods, Opens, Append, CanTrade;
    match op {
      case Deal(at, kind, p, q, note) =>
        if Deals(w, at, kind, p, q) {
          TradesAreNoRewards(w, at, kind, p, q);
          EntryPaysNobodyElse(w.book, TradeEntry(kind, Done(p, q), note), id);
        }
      case Fulfill(x, from, pay) =>
        if pay == Ledgered && Delivers(w, x, from, pay) { EntryPaysNobodyElse(w.book, Payout(Terms(w, x)), id); }
      case _ =>
    }
  }

  lemma TradesAreNoRewards(w: World, at: Place, kind: EntryType, p: MarketPrice, q: u64)
    requires Deals(w, at, kind, p, q)
    ensures kind != ContractReward && w.book.next != U64_MAX && Priced(p, q)
  {
  }

  lemma StepPaysNoTerminal(w: World, op: Op, id: string)
    requires Terminal(w.contracts, id)
    ensures Terminal(Step(w, op).contracts, id) && Payouts(Step(w, op).book.entries, id) == Payouts(w.book.entries, id)
  {
    StepContinues(w, op);
    FindStays(w.contracts, Step(w, op).contracts, id);
    BookPaysNoTerminal(w, op, id);
    StepAfter(w, op);
    hide Continues, Terminal, Payouts, Step, BookAfter;
  }

  // From any world at all, once a contract is terminal no run pays for it again.
  lemma {:induction false} TerminalIsNeverPaid(w: World, ops: seq<Op>, id: string)
    requires Terminal(w.contracts, id)
    ensures Payouts(Run(w, ops).book.entries, id) == Payouts(w.book.entries, id)
    decreases |ops|
  {
    hide Payouts, Terminal, Step;
    if ops != [] {
      StepPaysNoTerminal(w, ops[0], id);
      TerminalIsNeverPaid(Step(w, ops[0]), ops[1..], id);
    }
  }

  // So a contract added to any world and marked fulfilled directly is never paid, whatever follows.
  lemma DirectMarkIsNeverPaid(w: World, c: Contract, later: seq<Op>)
    requires CanAddContract(w.contracts, c) && c.id !in RewardRefs(w.book.entries)
    ensures var end := Run(w, [Op.Add(c), Mark(c.id, Fulfilled)] + later);
      c.id !in RewardRefs(end.book.entries) && FulfilledId(end.contracts, c.id) && !PaidExactlyOnce(end)
  {
    var ops := [Op.Add(c), Mark(c.id, Fulfilled)] + later;
    var added := Step(w, Op.Add(c));
    AddedIsFound(w.contracts, Dated(c));
    var marked := Step(added, Mark(c.id, Fulfilled));
    var n := |w.contracts|;
    assert marked.contracts[n].id == c.id && marked.contracts[n].status == Fulfilled;
    AddedIsFound(w.contracts, marked.contracts[n]);
    assert marked.contracts == w.contracts + [marked.contracts[n]];
    assert ops[1..][0] == ops[1] && ops[1..][1..] == later;
    assert Run(w, ops) == Run(marked, later);
    TerminalIsNeverPaid(marked, later, c.id);
    TerminalContractsStay(marked, later);
    assert Run(marked, later).contracts[n] == marked.contracts[n];
    assert c.id !in multiset(RewardRefs(Run(marked, later).book.entries));
  }

  // And a contract delivered off the ledger, from any world, is never paid either.
  lemma UnledgeredDeliveryIsNeverPaid(w: World, id: string, from: Origin, pay: Payment, later: seq<Op>)
    requires pay != Ledgered && Delivers(w, id, from, pay) && id !in RewardRefs(w.book.entries)
    ensures var end := Run(w, [Fulfill(id, from, pay)] + later);
      id !in RewardRefs(end.book.entries) && FulfilledId(end.contracts, id) && !PaidExactlyOnce(end)
  {
    var op := Fulfill(id, from, pay);
    var done := Step(w, op);
    StepAfter(w, op);
    DeliveryFulfills(w, id, from, pay);
    hide Step, Opens, Goods, Delivers, CanFulfill;
    var n := Find(w.contracts, id);
    assert done.contracts[n].id == id && done.contracts[n].status == Fulfilled && done.book == w.book;
    assert forall j :: 0 <= j < n ==> done.contracts[j].id == w.contracts[j].id;
    assert Find(done.contracts, id) == n;
    assert ([op] + later)[1..] == later;
    TerminalIsNeverPaid(done, later, id);
    TerminalContractsStay(done, later);
    assert Run(done, later).contracts[n] == done.contracts[n];
    assert id !in multiset(RewardRefs(Run(done, later).book.entries));
  }

  lemma AddedIsFound(cs: Catalog, c: Contract)
    requires Find(cs, c.id) == |cs|
    ensures Find(cs + [c], c.id) == |cs|
  {
    var more := cs + [c];
    assert more[|cs|].id == c.id && forall j :: 0 <= j < |cs| ==> more[j].id == cs[j].id;
  }

  // ---- stock ----

  ghost predicate AllProper(w: World) { forall s :: s in Stocks(w) ==> Proper(s) }

  lemma GoodsStayProper(w: World, at: Place, stock: Stock)
    requires Exists(w, at) && AllProper(w) && Proper(stock)
    ensures AllProper(WithGoods(w, at, stock))
  {
    hide Proper;
    var index := match at case Town(i) => i case Cargo(k) => |w.towns| + k;
    assert Stocks(WithGoods(w, at, stock)) == Stocks(w)[index := stock];
  }

  lemma GoodsAreProper(w: World, at: Place)
    requires Exists(w, at) && AllProper(w)
    ensures Proper(Goods(w, at))
  {
    hide Proper;
    assert Goods(w, at) in Stocks(w) by {
      var index := match at case Town(i) => i case Cargo(k) => |w.towns| + k;
      assert Stocks(w)[index] == Goods(w, at);
    }
  }

  lemma MovedStaysProper(w: World, from: Place, to: Place, r: string, n: u64)
    requires from != to && Exists(w, from) && Exists(w, to) && AllProper(w)
    requires CanRemove(Goods(w, from), r, n) && CanAdd(Goods(w, to), r, n)
    ensures AllProper(Moved(w, from, to, r, n))
  {
    GoodsAreProper(w, from);
    GoodsAreProper(w, to);
    StaysProper(Goods(w, from), r, n);
    StaysProper(Goods(w, to), r, n);
    var mid := WithGoods(w, from, Removed(Goods(w, from), r, n));
    GoodsStayProper(w, from, Removed(Goods(w, from), r, n));
    assert Exists(mid, to);
    hide AllProper, Proper;
    GoodsStayProper(mid, to, Added(Goods(w, to), r, n));
  }

  lemma SameStocksProper(v: World, w: World)
    requires v.towns == w.towns && v.caravans == w.caravans && AllProper(w)
    ensures AllProper(v)
  {
    assert Stocks(v) == Stocks(w);
  }

  lemma DealStaysProper(w: World, at: Place, kind: EntryType, p: MarketPrice, q: u64, note: string)
    requires AllProper(w) && Deals(w, at, kind, p, q)
    ensures AllProper(Dealt(w, at, kind, p, q, note))
  {
    var stock := Goods(w, at);
    var after := if kind == Buy then Added(stock, p.resourceId, q) else Removed(stock, p.resourceId, q);
    GoodsAreProper(w, at);
    StaysProper(stock, p.resourceId, q);
    GoodsStayProper(w, at, after);
    hide AllProper, Proper, Append, TradeEntry;
    SameStocksProper(Dealt(w, at, kind, p, q, note), WithGoods(w, at, after));
  }

  lemma DeliveryStaysProper(w: World, id: string, from: Origin, pay: Payment)
    requires AllProper(w) && Delivers(w, id, from, pay)
    ensures AllProper(Delivered(w, id, from, pay))
  {
    var c, at := Terms(w, id), PlaceOf(from);
    GoodsAreProper(w, at);
    StaysProper(Goods(w, at), c.resourceId, c.quantity);
    GoodsStayProper(w, at, Removed(Goods(w, at), c.resourceId, c.quantity));
    hide AllProper, Proper, Append, Marked, Opens;
    SameStocksProper(Delivered(w, id, from, pay), WithGoods(w, at, Removed(Goods(w, at), c.resourceId, c.quantity)));
  }

  lemma StepKeepsProper(w: World, op: Op)
    requires AllProper(w)
    ensures AllProper(Step(w, op))
  {
    hide AllProper, Deals, Dealt, Delivers, Delivered, Moved, Marked, Swept;
    match op {
      case Deal(at, kind, p, q, note) => if Deals(w, at, kind, p, q) { DealStaysProper(w, at, kind, p, q, note); }
      case Fulfill(id, from, pay) => if Delivers(w, id, from, pay) { DeliveryStaysProper(w, id, from, pay); }
      case Load(k, i, r, n) => if Loads(w, k, i, r, n) { MovedStaysProper(w, Town(i), Cargo(k), r, n); }
      case Unload(k, i, r, n) => if Unloads(w, k, i, r, n) { MovedStaysProper(w, Cargo(k), Town(i), r, n); }
      case Go(k, ticks) => if k < |w.caravans| { GoingStaysProper(w, k, ticks); }
      case _ => SameStocksProper(Step(w, op), w);
    }
  }

  lemma GoingStaysProper(w: World, k: nat, ticks: u64)
    requires k < |w.caravans| && AllProper(w)
    ensures AllProper(w.(caravans := w.caravans[k := AfterTicks(w.caravans[k], ticks)]))
  {
    assert Stocks(w.(caravans := w.caravans[k := AfterTicks(w.caravans[k], ticks)])) == Stocks(w);
  }

  // Over any run every storage and every cargo keeps only named, positive entries.
  lemma {:induction false} RunKeepsProper(w: World, ops: seq<Op>)
    requires AllProper(w)
    ensures AllProper(Run(w, ops))
    decreases |ops|
  {
    hide AllProper, Step;
    if ops != [] {
      StepKeepsProper(w, ops[0]);
      RunKeepsProper(Step(w, ops[0]), ops[1..]);
    }
  }

  // Whatever was run, the ledger can be restored to exactly what it is.
  lemma RunLedgerRestores(w: World, ops: seq<Op>)
    requires Fresh(w)
    ensures var b := Run(w, ops).book; Restorable(b.entries) && Book(b.entries, ExpectedSequence(|b.entries|)) == b
  {
    PaidExactlyOnceExactly(w, ops);
    SequencedRestores(Run(w, ops).book);
  }
}
