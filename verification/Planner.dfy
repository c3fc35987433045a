// Fulfilling contracts from caravans, and the planner that predicts which fulfilments succeed.
module Planner {
  import opened U64
  import opened Records
  import opened Storage
  import opened Ledger
  import opened Trade
  import opened Contracts
  import opened Caravans

  predicate OwnedBy(o: Owners, caravan: string, expected: string) {
    expected != [] && OwnerOf(o, caravan) != [] && OwnerOf(o, caravan) == expected
  }

  // ---- the fulfilment family for caravans ----

  function Refused(id: string): Fulfillment { Fulfillment(id, "", 0, 0, false, 1) }

  method FulfillFromArrivedCaravan(catalog: ContractCatalog, id: string, caravan: CaravanState) returns (r: Fulfillment)
    modifies catalog, caravan.cargo
    ensures r.Ok()
            <==> Arrived(old(caravan.View())) && CanDeliver(old(catalog.contracts), id, old(caravan.cargo.entries))
    ensures !r.Ok() ==>
      catalog.contracts == old(catalog.contracts) && caravan.cargo.entries == old(caravan.cargo.entries)
    ensures r.Ok() ==> var c := old(catalog.contracts)[Find(old(catalog.contracts), id)];
      && catalog.contracts == Marked(old(catalog.contracts), id, Fulfilled)
      && caravan.cargo.entries == Removed(old(caravan.cargo.entries), c.resourceId, c.quantity)
  {
    if !Arrived(caravan.View()) { return Refused(id); }
    r := catalog.FulfillFromStorage(id, caravan.cargo);
  }

  method FulfillFromOwnedArrivedCaravan(catalog: ContractCatalog, id: string, caravan: CaravanState,
                                        ownership: Owners, expected: string) returns (r: Fulfillment)
    modifies catalog, caravan.cargo
    ensures r.Ok() <==>
      && OwnedBy(ownership, caravan.id, expected) && Arrived(old(caravan.View()))
      && CanDeliver(old(catalog.contracts), id, old(caravan.cargo.entries))
    ensures !r.Ok() ==>
      catalog.contracts == old(catalog.contracts) && caravan.cargo.entries == old(caravan.cargo.entries)
    ensures r.Ok() ==> var c := old(catalog.contracts)[Find(old(catalog.contracts), id)];
      && catalog.contracts == Marked(old(catalog.contracts), id, Fulfilled)
      && caravan.cargo.entries == Removed(old(caravan.cargo.entries), c.resourceId, c.quantity)
  {
    if expected == [] { return Refused(id); }
    var owner := OwnerOf(ownership, caravan.id);
    if owner == [] { return Refused(id); }
    if owner != expected { return Refused(id); }
    r := FulfillFromArrivedCaravan(catalog, id, caravan);
  }

  method RewardFromArrivedCaravan(catalog: ContractCatalog, id: string, caravan: CaravanState, wallet: Wallet)
    returns (r: Fulfillment)
    modifies catalog, caravan.cargo, wallet
    ensures r.Ok() <==>
      && Arrived(old(caravan.View()))
      && CanPay(old(catalog.contracts), id, old(caravan.cargo.entries), old(wallet.coins))
    ensures !r.Ok() ==>
      && catalog.contracts == old(catalog.contracts) && caravan.cargo.entries == old(caravan.cargo.entries)
      && wallet.coins == old(wallet.coins)
    ensures r.Ok() ==> var c := old(catalog.contracts)[Find(old(catalog.contracts), id)];
      && catalog.contracts == Marked(old(catalog.contracts), id, Fulfilled)
      && caravan.cargo.entries == Removed(old(caravan.cargo.entries), c.resourceId, c.quantity)
      && wallet.coins == old(wallet.coins) + c.reward
  {
    if !Arrived(caravan.View()) { return Refused(id); }
    r := catalog.FulfillWithReward(id, caravan.cargo, wallet);
  }

  method RewardFromOwnedArrivedCaravan(catalog: ContractCatalog, id: string, caravan: CaravanState,
                                       ownership: Owners, expected: string, wallet: Wallet) returns (r: Fulfillment)
    modifies catalog, caravan.cargo, wallet
    ensures r.Ok() <==>
      && OwnedBy(ownership, caravan.id, expected) && Arrived(old(caravan.View()))
      && CanPay(old(catalog.contracts), id, old(caravan.cargo.entries), old(wallet.coins))
    ensures !r.Ok() ==>
      && catalog.contracts == old(catalog.contracts) && caravan.cargo.entries == old(caravan.cargo.entries)
      && wallet.coins == old(wallet.coins)
    ensures r.Ok() ==> var c := old(catalog.contracts)[Find(old(catalog.contracts), id)];
      && catalog.contracts == Marked(old(catalog.contracts), id, Fulfilled)
      && caravan.cargo.entries == Removed(old(caravan.cargo.entries), c.resourceId, c.quantity)
      && wallet.coins == old(wallet.coins) + c.reward
  {
    if expected == [] { return Refused(id); }
    var owner := OwnerOf(ownership, caravan.id);
    if owner == [] { return Refused(id); }
    if owner != expected { return Refused(id); }
    r := RewardFromArrivedCaravan(catalog, id, caravan, wallet);
  }

  method SettleFromArrivedCaravan(catalog: ContractCatalog, id: string, caravan: CaravanState,
                                  wallet: Wallet, ledger: EconomyLedger) returns (r: Fulfillment)
    modifies catalog, caravan.cargo, wallet, ledger
    ensures r.Ok() <==>
      && Arrived(old(caravan.View()))
      && CanSettle(old(catalog.contracts), id, old(caravan.cargo.entries), old(wallet.coins), old(ledger.View()))
    ensures r.Ok() ==> var c := old(catalog.contracts)[Find(old(catalog.contracts), id)];
      && catalog.contracts == Marked(old(catalog.contracts), id, Fulfilled)
      && caravan.cargo.entries == Removed(old(caravan.cargo.entries), c.resourceId, c.quantity)
      && wallet.coins == old(wallet.coins) + c.reward
      && ledger.View() == Append(old(ledger.View()), Payout(c))
    ensures !r.Ok() ==>
      && catalog.contracts == old(catalog.contracts) && caravan.cargo.entries == old(caravan.cargo.entries)
      && wallet.coins == old(wallet.coins) && ledger.View() == old(ledger.View())
  {
    if !Arrived(caravan.View()) { return Refused(id); }
    r := catalog.FulfillWithRewardAndLedger(id, caravan.cargo, wallet, ledger);
  }

  method SettleFromOwnedArrivedCaravan(catalog: ContractCatalog, id: string, caravan: CaravanState,
                                       ownership: Owners, expected: string, wallet: Wallet, ledger: EconomyLedger)
    returns (r: Fulfillment)
    modifies catalog, caravan.cargo, wallet, ledger
    ensures r.Ok() <==>
      && OwnedBy(ownership, caravan.id, expected) && Arrived(old(caravan.View()))
      && CanSettle(old(catalog.contracts), id, old(caravan.cargo.entries), old(wallet.coins), old(ledger.View()))
    ensures r.Ok() ==> var c := old(catalog.contracts)[Find(old(catalog.contracts), id)];
      && catalog.contracts == Marked(old(catalog.contracts), id, Fulfilled)
      && caravan.cargo.entries == Removed(old(caravan.cargo.entries), c.resourceId, c.quantity)
      && wallet.coins == old(wallet.coins) + c.reward
      && ledger.View() == Append(old(ledger.View()), Payout(c))
    ensures !r.Ok() ==>
      && catalog.contracts == old(catalog.contracts) && caravan.cargo.entries == old(caravan.cargo.entries)
      && wallet.coins == old(wallet.coins) && ledger.View() == old(ledger.View())
  {
    if expected == [] { return Refused(id); }
    var owner := OwnerOf(ownership, caravan.id);
    if owner == [] { return Refused(id); }
    if owner != expected { return Refused(id); }
    r := SettleFromArrivedCaravan(catalog, id, caravan, wallet, ledger);
  }

  // ---- the planner ----

  datatype Source = FromStorage | FromCaravan

  datatype Plan = Plan(
    contractId: string, resourceId: string, source: Source, required: u64, available: u64, transferable: u64,
    missing: u64, sourceReady: bool, ownerMatches: bool, canFulfill: bool)

  function UnknownPlan(id: string, source: Source): Plan {
    Plan(id, "", source, 0, 0, 0, 0, false, false, false)
  }

  function PlanFromStorage(cs: Catalog, id: string, stock: Stock): Plan {
    var i := Find(cs, id);
    if i == |cs| then UnknownPlan(id, FromStorage)
    else
      var c := cs[i];
      var available := Amount(stock, c.resourceId);
      var transferable := Min(available, c.quantity);
      var missing := c.quantity - transferable;
      Plan(c.id, c.resourceId, FromStorage, c.quantity, available, transferable, missing, true, true,
           c.status == Open && missing == 0)
  }

  // `ownership` is absent when ownership is not to be considered.
  datatype MaybeOwnership = NoOwnership | Owned(ownership: Owners)

  function PlanFromCaravan(cs: Catalog, id: string, caravan: Caravan, o: MaybeOwnership, expected: string): Plan {
    var i := Find(cs, id);
    if i == |cs| then UnknownPlan(id, FromCaravan)
    else
      var c := cs[i];
      var available := Amount(caravan.cargo, c.resourceId);
      var transferable := Min(available, c.quantity);
      var missing := c.quantity - transferable;
      var ready := Arrived(caravan);
      var ownerMatches := if o.Owned? && expected != [] then OwnerOf(o.ownership, caravan.id) == expected else true;
      Plan(c.id, c.resourceId, FromCaravan, c.quantity, available, transferable, missing, ready, ownerMatches,
           c.status == Open && ready && ownerMatches && missing == 0)
  }

  // The contract found under this id could not have been added: it asks for nothing, or has no id.
  predicate Degenerate(cs: Catalog, id: string) {
    Find(cs, id) < |cs| && cs[Find(cs, id)].status == Open && (id == [] || cs[Find(cs, id)].quantity == 0)
  }

  predicate AllValid(cs: Catalog) { forall i :: 0 <= i < |cs| ==> ValidContract(cs[i]) }

  lemma AddedIsNeverDegenerate(cs: Catalog, id: string)
    requires AllValid(cs)
    ensures !Degenerate(cs, id)
  {
    if Find(cs, id) < |cs| { assert ValidContract(cs[Find(cs, id)]); }
  }

  // The plan says yes exactly when delivery from that storage succeeds; the only plans that are
  // wrong are for degenerate contracts the stock covers.
  lemma StoragePlanPredictsExactly(cs: Catalog, id: string, stock: Stock)
    ensures (PlanFromStorage(cs, id, stock).canFulfill <==> CanDeliver(cs, id, stock))
            <==> !(Degenerate(cs, id) && var c := cs[Find(cs, id)]; Amount(stock, c.resourceId) >= c.quantity)
  {
  }

  // A contract for nothing is planned and then refused, whatever is in stock.
  lemma EmptyContractIsMisplanned(resource: string, reward: u64, stock: Stock)
    ensures var cs := [Contract("c", "C", "a", "b", resource, 0, reward, 1, 0, Open)];
      PlanFromStorage(cs, "c", stock).canFulfill && !CanDeliver(cs, "c", stock)
  {
    var cs := [Contract("c", "C", "a", "b", resource, 0, reward, 1, 0, Open)];
    assert Find(cs, "c") == 0;
  }

  // With ownership and a faction given, the caravan plan says yes exactly when the owned
  // fulfilment succeeds; without them, exactly when the plain arrived fulfilment does.
  lemma CaravanPlanPredicts(cs: Catalog, id: string, caravan: Caravan, o: MaybeOwnership, expected: string)
    requires AllValid(cs)
    ensures o.Owned? && expected != [] ==>
      (PlanFromCaravan(cs, id, caravan, o, expected).canFulfill
       <==> OwnedBy(o.ownership, caravan.id, expected) && Arrived(caravan) && CanDeliver(cs, id, caravan.cargo))
    ensures !(o.Owned? && expected != []) ==>
      (PlanFromCaravan(cs, id, caravan, o, expected).canFulfill
       <==> Arrived(caravan) && CanDeliver(cs, id, caravan.cargo))
  {
    AddedIsNeverDegenerate(cs, id);
    StoragePlanPredictsExactly(cs, id, caravan.cargo);
  }

  // An open contract whose goods are in the cargo of an arrived caravan.
  predicate Ready(cs: Catalog, id: string, caravan: Caravan) {
    && Find(cs, id) < |cs| && Arrived(caravan)
    && var c := cs[Find(cs, id)]; c.status == Open && Amount(caravan.cargo, c.resourceId) >= c.quantity
  }

  // Over every faction a caller may name, the plan and the owned fulfilment agree unless no faction
  // is named and everything else is ready: then the plan says yes, and the fulfilment refuses.
  lemma OwnedPlanAgreesExactly(cs: Catalog, id: string, caravan: Caravan, ownership: Owners, expected: string)
    requires AllValid(cs)
    ensures (PlanFromCaravan(cs, id, caravan, Owned(ownership), expected).canFulfill
             <==> OwnedBy(ownership, caravan.id, expected) && Arrived(caravan) && CanDeliver(cs, id, caravan.cargo))
            <==> expected != [] || !Ready(cs, id, caravan)
  {
    AddedIsNeverDegenerate(cs, id);
    CaravanPlanPredicts(cs, id, caravan, Owned(ownership), expected);
  }

  // A caravan of the guild arrives with the five grain that are due; asked for nobody in particular, the
  // plan says yes and the owned fulfilment no.
  lemma NobodysCaravanIsMisplanned()
    ensures var cs := [Contract("c", "C", "a", "b", "grain", 5, 1, 1, 0, Open)];
      var caravan := Caravan("k", "K", "r", "a", "b", 1, 0, 0, 0, map["grain" := 5]);
      && AllValid(cs) && PlanFromCaravan(cs, "c", caravan, Owned([("k", "guild")]), "").canFulfill
      && !OwnedBy([("k", "guild")], caravan.id, "")
  {
    var cs := [Contract("c", "C", "a", "b", "grain", 5, 1, 1, 0, Open)];
    var caravan := Caravan("k", "K", "r", "a", "b", 1, 0, 0, 0, map["grain" := 5]);
    assert Find(cs, "c") == 0;
    assert Ready(cs, "c", caravan);
    OwnedPlanAgreesExactly(cs, "c", caravan, [("k", "guild")], "");
  }

  // The shortfall a plan shows is what is missing for delivery.
  lemma PlanShowsShortfall(cs: Catalog, id: string, stock: Stock, extra: u64)
    requires AllValid(cs) && IsOpen(cs, id) && extra > 0
    requires var p := PlanFromStorage(cs, id, stock); CanAdd(stock, p.resourceId, extra)
    ensures var p := PlanFromStorage(cs, id, stock);
            CanDeliver(cs, id, Added(stock, p.resourceId, extra)) <==> extra >= p.missing
  {
    var c := cs[Find(cs, id)];
    assert ValidContract(c);
    AmountAfter(stock, c.resourceId, extra, c.resourceId);
  }

  // Plan then act: the method succeeds exactly when the plan made just before said so.
  method PlanThenDeliver(catalog: ContractCatalog, id: string, goods: ResourceStorage) returns (p: Plan, r: Fulfillment)
    requires AllValid(catalog.contracts)
    modifies catalog, goods
    ensures p == PlanFromStorage(old(catalog.contracts), id, old(goods.entries))
    ensures p.canFulfill <==> r.Ok()
  {
    p := PlanFromStorage(catalog.contracts, id, goods.entries);
    AddedIsNeverDegenerate(catalog.contracts, id);
    StoragePlanPredictsExactly(catalog.contracts, id, goods.entries);
    r := catalog.FulfillFromStorage(id, goods);
  }
}
