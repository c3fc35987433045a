// Delivery contracts: adding, fulfilling, marking, and failing them when overdue.
module Contracts {
  import opened U64
  import opened Lookup
  import opened Storage
  import opened Ledger
  import opened Trade

  datatype Status = Open | Fulfilled | Failed | Cancelled

  datatype Contract = Contract(
    id: string, displayName: string, issuer: string, receiver: string, resourceId: string,
    quantity: u64, reward: u64, dueDay: u64, dueTicks: u64, status: Status)

  type Catalog = seq<Contract>

  function DueTicks(c: Contract): u64 {
    if c.dueTicks > 0 then c.dueTicks else DaysToTicks(c.dueDay)
  }

  predicate ValidContract(c: Contract) {
    && c.id != [] && c.displayName != [] && c.issuer != [] && c.receiver != [] && c.issuer != c.receiver
    && c.resourceId != [] && c.quantity > 0 && c.reward > 0 && DueTicks(c) > 0
    && (c.dueDay > 0 && c.dueTicks > 0 ==> c.dueTicks == DaysToTicks(c.dueDay))
  }

  // The number of errors reported for a contract.
  function ValidateContract(c: Contract): (errors: nat)
    ensures errors == 0 <==> ValidContract(c)
  {
    (if c.id == [] then 1 else 0) + (if c.displayName == [] then 1 else 0)
    + (if c.issuer == [] then 1 else 0) + (if c.receiver == [] then 1 else 0)
    + (if c.issuer != [] && c.receiver != [] && c.issuer == c.receiver then 1 else 0)
    + (if c.resourceId == [] then 1 else 0) + (if c.quantity == 0 then 1 else 0)
    + (if c.reward == 0 then 1 else 0) + (if DueTicks(c) == 0 then 1 else 0)
    + (if c.dueDay > 0 && c.dueTicks > 0 && c.dueTicks != DaysToTicks(c.dueDay) then 1 else 0)
  }

  // The first contract with an id, or the length.
  function Find(cs: Catalog, id: string): (i: nat)
    ensures i <= |cs|
    ensures i < |cs| ==> cs[i].id == id
    ensures forall j :: 0 <= j < i ==> cs[j].id != id
  {
    First(cs, (c: Contract) => c.id == id)
  }

  // A contract due on a day gets its tick when it is added.
  function Dated(c: Contract): Contract {
    if c.dueTicks == 0 && c.dueDay > 0 then c.(dueTicks := DaysToTicks(c.dueDay)) else c
  }

  predicate CanAddContract(cs: Catalog, c: Contract) {
    ValidContract(Dated(c)) && c.status == Open && Find(cs, c.id) == |cs|
  }

  // An open contract under a non-empty id.
  predicate IsOpen(cs: Catalog, id: string) {
    id != [] && Find(cs, id) < |cs| && cs[Find(cs, id)].status == Open
  }

  function Marked(cs: Catalog, id: string, status: Status): Catalog
    requires IsOpen(cs, id)
  {
    cs[Find(cs, id) := cs[Find(cs, id)].(status := status)]
  }

  predicate Overdue(c: Contract, tick: u64) { c.status == Open && tick > DueTicks(c) }

  function Swept(cs: Catalog, tick: u64): Catalog {
    seq(|cs|, i requires 0 <= i < |cs| => if Overdue(cs[i], tick) then cs[i].(status := Status.Failed) else cs[i])
  }

  // The contracts a sweep fails, in catalog order.
  function OverdueIds(cs: Catalog, tick: u64): seq<string> {
    if cs == [] then []
    else
      var c := cs[|cs| - 1];
      OverdueIds(cs[..|cs| - 1], tick) + if Overdue(c, tick) then [c.id] else []
  }

  datatype DeadlineReport = DeadlineReport(currentDay: u64, currentTick: u64, failedCount: nat, failedIds: seq<string>)

  predicate CanDeliver(cs: Catalog, id: string, stock: Stock) {
    IsOpen(cs, id) && CanRemove(stock, cs[Find(cs, id)].resourceId, cs[Find(cs, id)].quantity)
  }

  predicate CanPay(cs: Catalog, id: string, stock: Stock, coins: u64) {
    CanDeliver(cs, id, stock) && coins + cs[Find(cs, id)].reward <= U64_MAX
  }

  // The ledger entry must be acceptable too.
  predicate CanSettle(cs: Catalog, id: string, stock: Stock, coins: u64, book: Book) {
    && CanPay(cs, id, stock, coins)
    && var c := cs[Find(cs, id)]; CanReward(book, c.id, c.resourceId, c.quantity, c.reward)
  }

  // A delivery may go unpaid, be rewarded, or be rewarded and written into the ledger.
  datatype Payment = Unpaid | Rewarded | Ledgered

  predicate CanFulfill(cs: Catalog, id: string, stock: Stock, coins: u64, book: Book, pay: Payment) {
    match pay
    case Unpaid => CanDeliver(cs, id, stock)
    case Rewarded => CanPay(cs, id, stock, coins)
    case Ledgered => CanSettle(cs, id, stock, coins, book)
  }

  datatype Fulfillment = Fulfillment(
    contractId: string, resourceId: string, quantity: u64, reward: u64, fulfilled: bool, errors: nat)
  {
    predicate Ok() { fulfilled && errors == 0 }
  }

  function ResultFor(c: Contract, fulfilled: bool, errors: nat): Fulfillment {
    Fulfillment(c.id, c.resourceId, c.quantity, c.reward, fulfilled, errors)
  }

  const PAYOUT_NOTE := "contract reward payout"

  function Payout(c: Contract): Entry {
    RewardEntry(c.id, c.resourceId, c.quantity, c.reward, PAYOUT_NOTE)
  }

  class ContractCatalog {
    var contracts: Catalog

    constructor ()
      ensures contracts == []
    {
      contracts := [];
    }

    constructor Copy(other: ContractCatalog)
      ensures contracts == other.contracts
    {
      contracts := other.contracts;
    }

    method Locate(id: string) returns (i: nat)
      ensures i == Find(contracts, id)
    {
      i := 0;
      while i < |contracts| && contracts[i].id != id
        invariant i <= |contracts|
        invariant forall j :: 0 <= j < i ==> contracts[j].id != id
      {
        i := i + 1;
      }
    }

    method AddContract(c: Contract) returns (errors: nat)
      modifies this
      ensures errors == 0 <==> CanAddContract(old(contracts), c)
      ensures contracts == if errors == 0 then old(contracts) + [Dated(c)] else old(contracts)
    {
      var dated := Dated(c);
      errors := ValidateContract(dated);
      if errors > 0 { return; }
      if dated.status != Open { return 1; }
      var i := Locate(dated.id);
      if i < |contracts| { return 1; }
      contracts := contracts + [dated];
    }

    method MarkStatus(id: string, status: Status) returns (errors: nat)
      modifies this
      ensures errors == 0 <==> IsOpen(old(contracts), id)
      ensures contracts == if errors == 0 then Marked(old(contracts), id, status) else old(contracts)
    {
      if id == [] { return 1; }
      var i := Locate(id);
      if i == |contracts| { return 1; }
      if contracts[i].status != Open { return 1; }
      contracts := contracts[i := contracts[i].(status := status)];
      return 0;
    }

    method FailOverdue(tick: u64) returns (report: DeadlineReport)
      modifies this
      ensures contracts == Swept(old(contracts), tick)
      ensures report == DeadlineReport(Div(tick, TICKS_PER_DAY), tick, |report.failedIds|,
                                       OverdueIds(old(contracts), tick))
    {
      var failed: seq<string> := [];
      for i := 0 to |contracts|
        invariant |contracts| == |old(contracts)|
        invariant forall j :: 0 <= j < i ==> contracts[j] == Swept(old(contracts), tick)[j]
        invariant forall j :: i <= j < |contracts| ==> contracts[j] == old(contracts)[j]
        invariant failed == OverdueIds(old(contracts)[..i], tick)
      {
        assert old(contracts)[..i + 1][..i] == old(contracts)[..i];
        if contracts[i].status == Open && tick > DueTicks(contracts[i]) {
          failed := failed + [contracts[i].id];
          contracts := contracts[i := contracts[i].(status := Status.Failed)];
        }
      }
      assert old(contracts)[..|old(contracts)|] == old(contracts);
      report := DeadlineReport(Div(tick, TICKS_PER_DAY), tick, |failed|, failed);
    }

    method FulfillFromStorage(id: string, goods: ResourceStorage) returns (r: Fulfillment)
      modifies this, goods
      ensures r.Ok() <==> CanDeliver(old(contracts), id, old(goods.entries))
      ensures r.Ok() ==> var c := old(contracts)[Find(old(contracts), id)];
        && r == ResultFor(c, true, 0)
        && contracts == Marked(old(contracts), id, Fulfilled)
        && goods.entries == Removed(old(goods.entries), c.resourceId, c.quantity)
      ensures !r.Ok() ==> contracts == old(contracts) && goods.entries == old(goods.entries)
    {
      r := Fulfillment("", "", 0, 0, false, 1);
      if id == [] { return; }
      var i := Locate(id);
      if i == |contracts| { return r.(contractId := id); }
      var c := contracts[i];
      if c.status != Open { return ResultFor(c, false, 1); }
      var removed := goods.TryRemove(c.resourceId, c.quantity);
      if !removed { return ResultFor(c, false, 1); }
      contracts := contracts[i := c.(status := Fulfilled)];
      return ResultFor(c, true, 0);
    }

    method FulfillWithReward(id: string, goods: ResourceStorage, wallet: Wallet) returns (r: Fulfillment)
      modifies this, goods, wallet
      ensures r.Ok() <==> CanPay(old(contracts), id, old(goods.entries), old(wallet.coins))
      ensures r.Ok() ==> var c := old(contracts)[Find(old(contracts), id)];
        && r == ResultFor(c, true, 0)
        && contracts == Marked(old(contracts), id, Fulfilled)
        && goods.entries == Removed(old(goods.entries), c.resourceId, c.quantity)
        && wallet.coins == old(wallet.coins) + c.reward
      ensures !r.Ok() ==>
        contracts == old(contracts) && goods.entries == old(goods.entries) && wallet.coins == old(wallet.coins)
    {
      r := Fulfillment("", "", 0, 0, false, 1);
      if id == [] { return; }
      var i := Locate(id);
      if i == |contracts| { return r.(contractId := id); }
      var c := contracts[i];
      if c.status != Open { return ResultFor(c, false, 1); }
      if c.reward > U64_MAX - wallet.coins { return ResultFor(c, false, 1); }
      r := FulfillFromStorage(id, goods);
      if !r.Ok() { return; }
      wallet.coins := wallet.coins + r.reward;
    }

    // Works on copies of catalog, goods, wallet and ledger, committed together or not at all.
    method FulfillWithRewardAndLedger(id: string, goods: ResourceStorage, wallet: Wallet, ledger: EconomyLedger)
      returns (r: Fulfillment)
      modifies this, goods, wallet, ledger
      ensures r.Ok() <==>
        CanSettle(old(contracts), id, old(goods.entries), old(wallet.coins), old(ledger.View()))
      ensures r.Ok() ==> var c := old(contracts)[Find(old(contracts), id)];
        && r == ResultFor(c, true, 0)
        && contracts == Marked(old(contracts), id, Fulfilled)
        && goods.entries == Removed(old(goods.entries), c.resourceId, c.quantity)
        && wallet.coins == old(wallet.coins) + c.reward
        && ledger.View() == Append(old(ledger.View()), Payout(c))
      ensures !r.Ok() ==>
        && contracts == old(contracts) && goods.entries == old(goods.entries)
        && wallet.coins == old(wallet.coins) && ledger.View() == old(ledger.View())
    {
      var catalogCopy := new ContractCatalog.Copy(this);
      var goodsCopy := new ResourceStorage.Copy(goods);
      var walletCopy := new Wallet(wallet.coins);
      var ledgerCopy := new EconomyLedger.Copy(ledger);
      r := catalogCopy.FulfillWithReward(id, goodsCopy, walletCopy);
      if !r.Ok() { return; }
      var recorded := ledgerCopy.RecordContractReward(r.contractId, r.resourceId, r.quantity, r.reward, PAYOUT_NOTE);
      if !recorded { return r.(errors := r.errors + 1); }
      contracts := catalogCopy.contracts;
      goods.entries := goodsCopy.entries;
      wallet.coins := walletCopy.coins;
      ledger.entries, ledger.nextSequence := ledgerCopy.entries, ledgerCopy.nextSequence;
    }
  }
}
