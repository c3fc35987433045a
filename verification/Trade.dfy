// Buying and selling against a wallet and a storage, alone or with a ledger entry.
module Trade {
  import opened U64
  import opened Records
  import opened Storage
  import opened Ledger

  class Wallet {
    var coins: u64

    constructor (coins: u64)
      ensures this.coins == coins
    {
      this.coins := coins;
    }
  }

  predicate Priced(p: MarketPrice, quantity: u64) {
    p.resourceId != [] && quantity > 0 && p.price > 0 && p.price * quantity <= U64_MAX
  }

  function Cost(p: MarketPrice, quantity: u64): u64
    requires Priced(p, quantity)
  {
    MulMonotone(quantity, 0, p.price);
    p.price * quantity
  }

  predicate CanBuy(coins: u64, stock: Stock, p: MarketPrice, quantity: u64) {
    Priced(p, quantity) && coins >= Cost(p, quantity) && CanAdd(stock, p.resourceId, quantity)
  }

  predicate CanSell(coins: u64, stock: Stock, p: MarketPrice, quantity: u64) {
    Priced(p, quantity) && coins + Cost(p, quantity) <= U64_MAX && CanRemove(stock, p.resourceId, quantity)
  }

  function Failed(p: MarketPrice, quantity: u64): TradeResult {
    TradeResult(false, p.resourceId, quantity, p.price, 0)
  }

  function Done(p: MarketPrice, quantity: u64): TradeResult
    requires Priced(p, quantity)
  {
    TradeResult(true, p.resourceId, quantity, p.price, Cost(p, quantity))
  }

  lemma CostIsPositive(p: MarketPrice, quantity: u64)
    requires Priced(p, quantity)
    ensures Cost(p, quantity) > 0
  {
    MulMonotone(quantity, 1, p.price);
  }

  method BuyResource(wallet: Wallet, storage: ResourceStorage, p: MarketPrice, quantity: u64) returns (r: TradeResult)
    modifies wallet, storage
    ensures r.ok <==> CanBuy(old(wallet.coins), old(storage.entries), p, quantity)
    ensures r.ok ==>
      && r == Done(p, quantity)
      && wallet.coins == old(wallet.coins) - r.totalPrice
      && storage.entries == Added(old(storage.entries), p.resourceId, quantity)
    ensures !r.ok ==>
      r == Failed(p, quantity) && wallet.coins == old(wallet.coins) && storage.entries == old(storage.entries)
  {
    MulOverflowsExactly(p.price, quantity);
    if p.resourceId == [] { return Failed(p, quantity); }
    if quantity == 0 { return Failed(p, quantity); }
    if p.price == 0 { return Failed(p, quantity); }
    if MulOverflows(p.price, quantity) { return Failed(p, quantity); }
    var total := Cost(p, quantity);
    if wallet.coins < total { return Failed(p, quantity); }
    var errors := storage.Add(p.resourceId, quantity);
    if errors > 0 { return Failed(p, quantity); }
    wallet.coins := wallet.coins - total;
    return Done(p, quantity);
  }

  method SellResource(wallet: Wallet, storage: ResourceStorage, p: MarketPrice, quantity: u64) returns (r: TradeResult)
    modifies wallet, storage
    ensures r.ok <==> CanSell(old(wallet.coins), old(storage.entries), p, quantity)
    ensures r.ok ==>
      && r == Done(p, quantity)
      && wallet.coins == old(wallet.coins) + r.totalPrice
      && storage.entries == Removed(old(storage.entries), p.resourceId, quantity)
    ensures !r.ok ==>
      r == Failed(p, quantity) && wallet.coins == old(wallet.coins) && storage.entries == old(storage.entries)
  {
    MulOverflowsExactly(p.price, quantity);
    if p.resourceId == [] { return Failed(p, quantity); }
    if quantity == 0 { return Failed(p, quantity); }
    if p.price == 0 { return Failed(p, quantity); }
    if MulOverflows(p.price, quantity) { return Failed(p, quantity); }
    var total := Cost(p, quantity);
    if total > U64_MAX - wallet.coins { return Failed(p, quantity); }
    var removed := storage.TryRemove(p.resourceId, quantity);
    if !removed { return Failed(p, quantity); }
    wallet.coins := wallet.coins + total;
    return Done(p, quantity);
  }

  predicate CanTrade(coins: u64, stock: Stock, book: Book, kind: EntryType, p: MarketPrice, quantity: u64) {
    && kind != ContractReward
    && (if kind == Buy then CanBuy(coins, stock, p, quantity) else CanSell(coins, stock, p, quantity))
    && book.next != U64_MAX
  }

  // Works on copies of wallet, storage and ledger, committed together or not at all.
  method TradeWithLedger(wallet: Wallet, storage: ResourceStorage, p: MarketPrice, quantity: u64,
                         ledger: EconomyLedger, kind: EntryType, note: string) returns (r: TradeResult)
    modifies wallet, storage, ledger
    ensures r.ok <==> CanTrade(old(wallet.coins), old(storage.entries), old(ledger.View()), kind, p, quantity)
    ensures r.ok ==>
      && r == Done(p, quantity)
      && wallet.coins == (if kind == Buy then old(wallet.coins) - r.totalPrice else old(wallet.coins) + r.totalPrice)
      && storage.entries == (if kind == Buy then Added(old(storage.entries), p.resourceId, quantity)
                             else Removed(old(storage.entries), p.resourceId, quantity))
      && ledger.View() == Append(old(ledger.View()), TradeEntry(kind, r, note))
    ensures !r.ok ==>
      && wallet.coins == old(wallet.coins) && storage.entries == old(storage.entries)
      && ledger.View() == old(ledger.View())
  {
    var walletCopy := new Wallet(wallet.coins);
    var storageCopy := new ResourceStorage.Copy(storage);
    var ledgerCopy := new EconomyLedger.Copy(ledger);
    if kind == Buy {
      r := BuyResource(walletCopy, storageCopy, p, quantity);
    } else {
      r := SellResource(walletCopy, storageCopy, p, quantity);
    }
    if !r.ok { return; }
    CostIsPositive(p, quantity);
    var recorded := ledgerCopy.Record(kind, r, note);
    if !recorded { return TradeResult(false, r.resourceId, r.quantity, r.unitPrice, 0); }
    wallet.coins := walletCopy.coins;
    storage.entries := storageCopy.entries;
    ledger.entries, ledger.nextSequence := ledgerCopy.entries, ledgerCopy.nextSequence;
  }
}
