// The stock of all settlements taken together, as the market sees it.
module Aggregate {
  import opened U64
  import opened Storage
  import opened Settlement
  import opened MarketListing

  // What the settlements really hold of a resource.
  function Storages(ss: seq<Settlement>): seq<Stock> {
    seq(|ss|, i requires 0 <= i < |ss| => ss[i].storage)
  }

  function Held(ss: seq<Settlement>, r: string): nat { HeldIn(Storages(ss), r) }

  lemma HeldSnoc(ss: seq<Settlement>, r: string)
    requires ss != []
    ensures Held(ss, r) == Held(ss[..|ss| - 1], r) + Amount(ss[|ss| - 1].storage, r)
  {
    assert Storages(ss)[..|ss| - 1] == Storages(ss[..|ss| - 1]);
  }

  lemma HeldUpdated(ss: seq<Settlement>, i: nat, s: Settlement, r: string)
    requires i < |ss|
    ensures Held(ss[i := s], r) == Held(ss, r) - Amount(ss[i].storage, r) + Amount(s.storage, r)
  {
    HeldInUpdated(Storages(ss), i, s.storage, r);
    assert Storages(ss[i := s]) == Storages(ss)[i := s.storage];
  }

  // An amount that would overflow the running total is left out altogether.
  function Pooled(total: u64, amount: u64): u64 { if total + amount <= U64_MAX then total + amount else total }

  // One settlement's stock poured into the pool, whatever order its entries are visited in.
  function Poured(pool: Stock, stock: Stock): (poured: Stock)
    ensures Proper(poured)
    ensures Proper(pool) ==>
      forall r: string :: Amount(poured, r) == if r == [] then 0 else Pooled(Amount(pool, r), Amount(stock, r))
  {
    map r | r in pool.Keys + stock.Keys && r != [] && Pooled(Amount(pool, r), Amount(stock, r)) > 0
      :: Pooled(Amount(pool, r), Amount(stock, r))
  }

  function Pool(ss: seq<Settlement>): (pool: Stock)
    ensures Proper(pool)
  {
    if ss == [] then map[] else Poured(Pool(ss[..|ss| - 1]), ss[|ss| - 1].storage)
  }

  // The pool shows what the settlements really hold exactly when that fits the counter.
  lemma {:induction false} PooledExactly(ss: seq<Settlement>, r: string)
    requires r != []
    ensures Amount(Pool(ss), r) <= Held(ss, r)
    ensures Amount(Pool(ss), r) == Held(ss, r) <==> Held(ss, r) <= U64_MAX
  {
    if ss != [] {
      HeldSnoc(ss, r);
      PooledExactly(ss[..|ss| - 1], r);
    }
  }

  // Two hoards of 2^63 each: the pool shows only the first.
  lemma SecondHoardIsLeftOut(a: Settlement, b: Settlement, r: string)
    requires r != [] && a.storage == b.storage == map[r := 0x8000_0000_0000_0000]
    ensures Amount(Pool([a, b]), r) == 0x8000_0000_0000_0000 && Held([a, b], r) == 0x1_0000_0000_0000_0000
  {
    assert [a, b][..1] == [a] && [a][..0] == [];
    HeldSnoc([a, b], r);
    HeldSnoc([a], r);
    assert Amount(Pool([a]), r) == Held([a], r) == 0x8000_0000_0000_0000;
  }

  lemma SameAmounts(a: Stock, b: Stock)
    requires Proper(a) && Proper(b) && forall r: string :: Amount(a, r) == Amount(b, r)
    ensures a == b
  {
    assert forall r: string :: r in a <==> Amount(a, r) > 0;
    assert forall r: string :: r in b <==> Amount(b, r) > 0;
    assert a.Keys == b.Keys;
    forall r | r in a ensures a[r] == b[r] { assert Amount(a, r) == Amount(b, r); }
  }

  // Partway through one settlement's entries.
  ghost predicate PartPoured(pool: Stock, before: Stock, stock: Stock, done: set<string>) {
    forall r: string :: Amount(pool, r) ==
      if r != [] && r in done then Pooled(Amount(before, r), Amount(stock, r)) else Amount(before, r)
  }

  method PourIn(pool: ResourceStorage, stock: Stock)
    requires Proper(pool.entries)
    modifies pool
    ensures pool.entries == Poured(old(pool.entries), stock)
  {
    var order := VisitOrder(stock.Keys);
    assert Elements(order[..0]) == {};
    for i := 0 to |order|
      invariant Proper(pool.entries) && PartPoured(pool.entries, old(pool.entries), stock, Elements(order[..i]))
    {
      var r := order[i];
      assert r in Elements(order);
      assert order[..i + 1] == order[..i] + [r];
      ElementsSnoc(order[..i], r);
      assert r !in Elements(order[..i]);
      var errors := pool.Add(r, stock[r]);
    }
    assert order[..|order|] == order;
    SameAmounts(pool.entries, Poured(old(pool.entries), stock));
  }

  // Resources without a name are never pooled.
  method AggregateStorage(ss: seq<Settlement>) returns (pool: ResourceStorage)
    ensures fresh(pool) && pool.entries == Pool(ss)
  {
    pool := new ResourceStorage();
    for i := 0 to |ss|
      invariant fresh(pool) && pool.entries == Pool(ss[..i])
    {
      assert ss[..i + 1][..i] == ss[..i];
      PourIn(pool, ss[i].storage);
    }
    assert ss[..|ss|] == ss;
  }
}
