// The order book: validation, sorting and greedy matching at the seller's limit.
module Orders {
  import opened U64
  import opened Sorting

  datatype MarketOrder = MarketOrder(resourceId: string, quantity: u64, limitPrice: u64)

  datatype TradeExecution = TradeExecution(resourceId: string, quantity: u64, unitPrice: u64, totalPrice: u64)

  datatype MatchResult = MatchResult(
    trades: seq<TradeExecution>, warnings: nat, totalQuantity: u64, totalValue: u64)

  predicate Valid(o: MarketOrder) {
    o.resourceId != [] && o.quantity > 0 && o.limitPrice > 0 && o.quantity * o.limitPrice <= U64_MAX
  }

  // The number of errors reported for an order.
  function ValidateOrder(o: MarketOrder): (errors: nat)
    ensures errors == 0 <==> Valid(o)
  {
    MulOverflowsExactly(o.quantity, o.limitPrice);
    (if o.resourceId == [] then 1 else 0) + (if o.quantity == 0 then 1 else 0)
    + (if o.limitPrice == 0 then 1 else 0) + (if MulOverflows(o.quantity, o.limitPrice) then 1 else 0)
  }

  function ValidOnly(orders: seq<MarketOrder>): seq<MarketOrder> {
    if orders == [] then []
    else (if Valid(orders[0]) then [orders[0]] else []) + ValidOnly(orders[1..])
  }

  // Of the orders submitted those stay, as often as they were, that name a resource, ask for a quantity at a
  // price, and are worth what 64 bits hold.
  lemma {:induction false} KeptExactly(orders: seq<MarketOrder>, o: MarketOrder)
    ensures multiset(ValidOnly(orders))[o] ==
      if o.resourceId != "" && o.quantity > 0 && o.limitPrice > 0 && o.quantity * o.limitPrice <= U64_MAX
      then multiset(orders)[o] else 0
  {
    if orders != [] {
      KeptExactly(orders[1..], o);
      assert orders == [orders[0]] + orders[1..];
    }
  }

  // One error for each thing missing, and one for a value that does not fit.
  lemma OrderErrorsCounted(o: MarketOrder)
    ensures ValidateOrder(o) ==
      Tally(o.resourceId == "") + Tally(o.quantity == 0) + Tally(o.limitPrice == 0)
      + Tally(o.quantity * o.limitPrice > U64_MAX)
  {
    MulOverflowsExactly(o.quantity, o.limitPrice);
  }

  method RemoveInvalid(orders: seq<MarketOrder>) returns (kept: seq<MarketOrder>, removed: nat)
    ensures kept == ValidOnly(orders)
    ensures forall k :: 0 <= k < |kept| ==> Valid(kept[k])
    ensures removed == |orders| - |kept|
  {
    hide Valid;
    kept, removed := [], 0;
    assert orders[0..] == orders;
    for k := 0 to |orders|
      invariant kept + ValidOnly(orders[k..]) == ValidOnly(orders)
      invariant forall m :: 0 <= m < |kept| ==> Valid(kept[m])
      invariant removed == k - |kept|
    {
      assert orders[k..][1..] == orders[k + 1..];
      if ValidateOrder(orders[k]) != 0 {
        removed := removed + 1;
      } else {
        kept := kept + [orders[k]];
      }
    }
  }

  // ---- the two sides' orderings ----

  predicate BuyLe(a: MarketOrder, b: MarketOrder) {
    a.limitPrice > b.limitPrice || (a.limitPrice == b.limitPrice && StrLe(a.resourceId, b.resourceId))
  }

  predicate SellLe(a: MarketOrder, b: MarketOrder) {
    a.limitPrice < b.limitPrice || (a.limitPrice == b.limitPrice && StrLe(a.resourceId, b.resourceId))
  }

  lemma OrderingsAreTotal()
    ensures TotalPreorder(BuyLe) && TotalPreorder(SellLe)
  {
    StrLeIsTotalPreorder();
    forall x, y ensures (BuyLe(x, y) || BuyLe(y, x)) && (SellLe(x, y) || SellLe(y, x)) {
      StrLeTotal(x.resourceId, y.resourceId);
    }
    forall x, y, z | BuyLe(x, y) && BuyLe(y, z) ensures BuyLe(x, z) {
      if x.limitPrice == z.limitPrice { StrLeTransitive(x.resourceId, y.resourceId, z.resourceId); }
    }
    forall x, y, z | SellLe(x, y) && SellLe(y, z) ensures SellLe(x, z) {
      if x.limitPrice == z.limitPrice { StrLeTransitive(x.resourceId, y.resourceId, z.resourceId); }
    }
  }

  // ---- what a list of orders offers ----

  predicate InBand(o: MarketOrder, r: string, lo: int, hi: int) {
    o.resourceId == r && lo <= o.limitPrice <= hi
  }

  // Total quantity of a resource offered at limits within a band.
  function Depth(orders: seq<MarketOrder>, r: string, lo: int, hi: int): nat {
    if orders == [] then 0
    else
      var o := orders[|orders| - 1];
      Depth(orders[..|orders| - 1], r, lo, hi) + if InBand(o, r, lo, hi) then o.quantity else 0
  }

  // What buyers would take, and sellers would give, at one uniform price.
  function Demand(orders: seq<MarketOrder>, r: string, p: int): nat { Depth(orders, r, p, U64_MAX) }
  function Supply(orders: seq<MarketOrder>, r: string, p: int): nat { Depth(orders, r, 0, p) }
  function Total(orders: seq<MarketOrder>, r: string): nat { Depth(orders, r, 0, U64_MAX) }

  lemma {:induction false} DepthConcat(a: seq<MarketOrder>, b: seq<MarketOrder>, r: string, lo: int, hi: int)
    ensures Depth(a + b, r, lo, hi) == Depth(a, r, lo, hi) + Depth(b, r, lo, hi)
  {
    if b == [] {
      assert a + b == a;
    } else {
      var c := b[..|b| - 1];
      assert (a + b)[..|a + b| - 1] == a + c;
      DepthConcat(a, c, r, lo, hi);
    }
  }

  lemma DepthOne(o: MarketOrder, r: string, lo: int, hi: int)
    ensures Depth([o], r, lo, hi) == if InBand(o, r, lo, hi) then o.quantity else 0
  {
    assert [o][..0] == [];
  }

  lemma DepthSplit(orders: seq<MarketOrder>, k: nat, r: string, lo: int, hi: int)
    requires k < |orders|
    ensures Depth(orders, r, lo, hi)
            == Depth(orders[..k] + orders[k + 1..], r, lo, hi)
               + if InBand(orders[k], r, lo, hi) then orders[k].quantity else 0
  {
    assert orders == orders[..k] + [orders[k]] + orders[k + 1..];
    DepthOne(orders[k], r, lo, hi);
    DepthConcat(orders[..k], [orders[k]], r, lo, hi);
    DepthConcat(orders[..k] + [orders[k]], orders[k + 1..], r, lo, hi);
    DepthConcat(orders[..k], orders[k + 1..], r, lo, hi);
  }

  lemma RemoveOne(a: seq<MarketOrder>, b: seq<MarketOrder>) returns (k: nat)
    requires multiset(a) == multiset(b) && a != []
    ensures k < |b| && b[k] == a[0]
    ensures multiset(b[..k] + b[k + 1..]) == multiset(a[1..])
  {
    SameMembers(a, b);
    assert a[0] in a;
    k :| 0 <= k < |b| && b[k] == a[0];
    TakeOut(b, k);
    TakeOut(a, 0);
    assert a[..0] + a[1..] == a[1..];
    Cancel(multiset(b[..k] + b[k + 1..]), multiset(a[1..]), a[0]);
  }

  lemma DepthHead(orders: seq<MarketOrder>, r: string, lo: int, hi: int)
    requires orders != []
    ensures Depth(orders, r, lo, hi)
            == Depth(orders[1..], r, lo, hi) + if InBand(orders[0], r, lo, hi) then orders[0].quantity else 0
  {
    DepthSplit(orders, 0, r, lo, hi);
    assert orders[..0] + orders[1..] == orders[1..];
  }

  lemma EmptyPermuted(b: seq<MarketOrder>)
    requires multiset(b) == multiset{}
    ensures b == []
  {
    assert |multiset(b)| == |b|;
  }

  lemma {:induction false} DepthPermuted(a: seq<MarketOrder>, b: seq<MarketOrder>, r: string, lo: int, hi: int)
    requires multiset(a) == multiset(b)
    ensures Depth(a, r, lo, hi) == Depth(b, r, lo, hi)
    decreases |a|
  {
    hide Depth, InBand;
    if a == [] {
      EmptyPermuted(b);
    } else {
      var k := RemoveOne(a, b);
      DepthPermuted(a[1..], b[..k] + b[k + 1..], r, lo, hi);
      DepthSplit(b, k, r, lo, hi);
      DepthHead(a, r, lo, hi);
    }
  }

  function Fill(orders: seq<MarketOrder>, k: nat, q: u64): seq<MarketOrder>
    requires k < |orders| && q <= orders[k].quantity
  {
    orders[k := orders[k].(quantity := orders[k].quantity - q)]
  }

  lemma DepthAfterFill(orders: seq<MarketOrder>, k: nat, q: u64, r: string, lo: int, hi: int)
    requires k < |orders| && q <= orders[k].quantity
    ensures Depth(Fill(orders, k, q), r, lo, hi)
            == Depth(orders, r, lo, hi) - if InBand(orders[k], r, lo, hi) then q else 0
  {
    var after := Fill(orders, k, q);
    DepthSplit(orders, k, r, lo, hi);
    DepthSplit(after, k, r, lo, hi);
    assert after[..k] + after[k + 1..] == orders[..k] + orders[k + 1..];
  }

  function Volume(trades: seq<TradeExecution>, r: string): nat {
    if trades == [] then 0
    else
      var t := trades[|trades| - 1];
      Volume(trades[..|trades| - 1], r) + if t.resourceId == r then t.quantity else 0
  }

  function Quantity(trades: seq<TradeExecution>): nat {
    if trades == [] then 0 else Quantity(trades[..|trades| - 1]) + trades[|trades| - 1].quantity
  }

  function Worth(trades: seq<TradeExecution>): nat {
    if trades == [] then 0 else Worth(trades[..|trades| - 1]) + trades[|trades| - 1].totalPrice
  }

  function Quantities(trades: seq<TradeExecution>): seq<u64> {
    seq(|trades|, i requires 0 <= i < |trades| => trades[i].quantity)
  }

  function Prices(trades: seq<TradeExecution>): seq<u64> {
    seq(|trades|, i requires 0 <= i < |trades| => trades[i].totalPrice)
  }

  lemma {:induction false} SumSnoc(s: seq<u64>, x: u64)
    ensures Sum(s + [x]) == Sum(s) + x
  {
    if s == [] {
      assert (s + [x])[1..] == [];
    } else {
      assert (s + [x])[1..] == s[1..] + [x];
      SumSnoc(s[1..], x);
    }
  }

  // The totals are the sums of what the trades say.
  lemma {:induction false} TotalsTell(trades: seq<TradeExecution>)
    ensures Quantity(trades) == Sum(Quantities(trades)) && Worth(trades) == Sum(Prices(trades))
  {
    if trades != [] {
      var n := |trades| - 1;
      TotalsTell(trades[..n]);
      SumSnoc(Quantities(trades[..n]), trades[n].quantity);
      SumSnoc(Prices(trades[..n]), trades[n].totalPrice);
      assert Quantities(trades) == Quantities(trades[..n]) + [trades[n].quantity];
      assert Prices(trades) == Prices(trades[..n]) + [trades[n].totalPrice];
    }
  }

  // ---- the state of the greedy loop ----

  // `now` is `was` with some of the quantities used up.
  ghost predicate Used(was: seq<MarketOrder>, now: seq<MarketOrder>) {
    && |was| == |now|
    && forall k :: 0 <= k < |was| ==>
         && was[k].resourceId == now[k].resourceId && was[k].limitPrice == now[k].limitPrice
         && now[k].quantity <= was[k].quantity
  }

  predicate Touched(was: seq<MarketOrder>, now: seq<MarketOrder>, k: nat)
    requires k < |was| == |now|
  {
    now[k].quantity < was[k].quantity
  }

  predicate Crosses(buy: MarketOrder, sell: MarketOrder) {
    buy.resourceId == sell.resourceId && buy.limitPrice >= sell.limitPrice
  }

  predicate Spent(buy: MarketOrder, sell: MarketOrder) {
    Crosses(buy, sell) ==> buy.quantity == 0 || sell.quantity == 0
  }

  // Orders are used front to back: whatever precedes a touched order of the resource is used up.
  ghost predicate FrontToBack(was: seq<MarketOrder>, now: seq<MarketOrder>)
    requires |was| == |now|
  {
    forall j, k :: 0 <= j < k < |now| && now[j].resourceId == now[k].resourceId && Touched(was, now, k)
      ==> now[j].quantity == 0
  }

  ghost predicate TouchedCross(b0: seq<MarketOrder>, b: seq<MarketOrder>, s0: seq<MarketOrder>, s: seq<MarketOrder>)
    requires |b0| == |b| && |s0| == |s|
  {
    forall i, j :: 0 <= i < |b| && 0 <= j < |s| && Touched(b0, b, i) && Touched(s0, s, j)
                && b[i].resourceId == s[j].resourceId
      ==> b[i].limitPrice >= s[j].limitPrice
  }

  ghost predicate Matched(b0: seq<MarketOrder>, b: seq<MarketOrder>, s0: seq<MarketOrder>, s: seq<MarketOrder>) {
    Used(b0, b) && Used(s0, s) && FrontToBack(b0, b) && FrontToBack(s0, s) && TouchedCross(b0, b, s0, s)
  }

  // Buys before `i` are done with every sell; buy `i` is done with the sells before `j`; later buys are untouched.
  ghost predicate Progress(b0: seq<MarketOrder>, b: seq<MarketOrder>, s: seq<MarketOrder>, i: nat, j: nat)
    requires |b0| == |b|
  {
    && (forall m, n :: 0 <= m < i && m < |b| && 0 <= n < |s| ==> Spent(b[m], s[n]))
    && (forall n :: 0 <= n < j && n < |s| && i < |b| ==> Spent(b[i], s[n]))
    && (forall m :: i < m < |b| ==> b[m] == b0[m])
    && (j == 0 && i < |b| ==> b[i] == b0[i])
  }

  lemma TradeKeepsOrder(b0: seq<MarketOrder>, b: seq<MarketOrder>, s0: seq<MarketOrder>, s: seq<MarketOrder>,
                        i: nat, j: nat, q: u64)
    requires SortedBy(BuyLe, b0) && SortedBy(SellLe, s0)
    requires Matched(b0, b, s0, s) && i < |b| && j < |s| && Progress(b0, b, s, i, j)
    requires Crosses(b[i], s[j]) && 0 < q <= b[i].quantity && q <= s[j].quantity
    ensures Matched(b0, Fill(b, i, q), s0, Fill(s, j, q))
  {
    var b', s' := Fill(b, i, q), Fill(s, j, q);
    assert b[i].quantity > 0 && s[j].quantity > 0;
    forall m | 0 <= m < i && b[m].resourceId == b[i].resourceId ensures b[m].quantity == 0 {
      assert BuyLe(b0[m], b0[i]);
      assert Spent(b[m], s[j]);
    }
    forall n | 0 <= n < j && s[n].resourceId == s[j].resourceId ensures s[n].quantity == 0 {
      assert SellLe(s0[n], s0[j]);
      assert Spent(b[i], s[n]);
    }
    forall m, n | 0 <= m < |b| && 0 <= n < |s| && Touched(b0, b', m) && Touched(s0, s', n)
      && b[m].resourceId == s[n].resourceId ensures b[m].limitPrice >= s[n].limitPrice
    {
      if m != i && n != j {
        assert Touched(b0, b, m) && Touched(s0, s, n);
      } else {
        // Buy m precedes i, and sell n precedes j, in their sorted lists.
        assert m <= i;
        if n > j { assert Touched(s0, s, n); }
        if m < i { assert BuyLe(b0[m], b0[i]); }
        if n < j { assert SellLe(s0[n], s0[j]); }
      }
    }
  }

  // ---- matching ----

  // Everything traded is accounted for on both sides of the book.
  ghost predicate Conserved(b0: seq<MarketOrder>, b: seq<MarketOrder>, s0: seq<MarketOrder>, s: seq<MarketOrder>,
                            trades: seq<TradeExecution>)
  {
    forall r :: Volume(trades, r) == Total(b0, r) - Total(b, r) == Total(s0, r) - Total(s, r)
  }

  lemma TradeConserves(b0: seq<MarketOrder>, b: seq<MarketOrder>, s0: seq<MarketOrder>, s: seq<MarketOrder>,
                       trades: seq<TradeExecution>, i: nat, j: nat, t: TradeExecution)
    requires Conserved(b0, b, s0, s, trades) && i < |b| && j < |s|
    requires Crosses(b[i], s[j]) && t.resourceId == b[i].resourceId
    requires t.quantity <= b[i].quantity && t.quantity <= s[j].quantity
    ensures Conserved(b0, Fill(b, i, t.quantity), s0, Fill(s, j, t.quantity), trades + [t])
  {
    forall r ensures Volume(trades + [t], r) == Total(b0, r) - Total(Fill(b, i, t.quantity), r)
                  == Total(s0, r) - Total(Fill(s, j, t.quantity), r)
    {
      assert (trades + [t])[..|trades|] == trades;
      DepthAfterFill(b, i, t.quantity, r, 0, U64_MAX);
      DepthAfterFill(s, j, t.quantity, r, 0, U64_MAX);
    }
  }

  // What the sells of a resource have been asked for so far, each unit at its seller's limit.
  function Cost(was: seq<MarketOrder>, now: seq<MarketOrder>, r: string): int
    requires |was| == |now|
  {
    if was == [] then 0
    else
      var n := |was| - 1;
      Cost(was[..n], now[..n], r)
      + if was[n].resourceId == r then was[n].limitPrice * (was[n].quantity - now[n].quantity) else 0
  }

  lemma {:induction false} CostOfNothing(orders: seq<MarketOrder>, r: string)
    ensures Cost(orders, orders, r) == 0
  {
    if orders != [] { CostOfNothing(orders[..|orders| - 1], r); }
  }

  lemma {:induction false} CostAfterFill(was: seq<MarketOrder>, now: seq<MarketOrder>, k: nat, q: u64, r: string)
    requires |was| == |now| && k < |now| && q <= now[k].quantity
    ensures Cost(was, Fill(now, k, q), r)
            == Cost(was, now, r) + if was[k].resourceId == r then q * was[k].limitPrice else 0
  {
    var n, after := |was| - 1, Fill(now, k, q);
    if k < n {
      CostAfterFill(was[..n], now[..n], k, q, r);
      assert after[..n] == Fill(now[..n], k, q);
    } else {
      assert after[..n] == now[..n];
      var price, left := was[n].limitPrice, was[n].quantity - now[n].quantity;
      assert price * (left + q) == price * left + q * price;
    }
  }

  // The money paid for a resource.
  function Value(trades: seq<TradeExecution>, r: string): nat {
    if trades == [] then 0
    else
      var t := trades[|trades| - 1];
      Value(trades[..|trades| - 1], r) + if t.resourceId == r then t.totalPrice else 0
  }

  ghost predicate Priced(s0: seq<MarketOrder>, s: seq<MarketOrder>, trades: seq<TradeExecution>) {
    |s0| == |s| && forall r :: Value(trades, r) == Cost(s0, s, r)
  }

  lemma NothingPriced(s0: seq<MarketOrder>)
    ensures Priced(s0, s0, [])
  {
    forall r ensures Cost(s0, s0, r) == 0 { CostOfNothing(s0, r); }
  }

  lemma TradeIsPriced(s0: seq<MarketOrder>, s: seq<MarketOrder>, trades: seq<TradeExecution>, j: nat, t: TradeExecution)
    requires Priced(s0, s, trades) && j < |s| && t.quantity <= s[j].quantity
    requires t.resourceId == s0[j].resourceId && t.totalPrice == t.quantity * s0[j].limitPrice
    ensures Priced(s0, Fill(s, j, t.quantity), trades + [t])
  {
    forall r ensures Value(trades + [t], r) == Cost(s0, Fill(s, j, t.quantity), r) {
      assert (trades + [t])[..|trades|] == trades;
      CostAfterFill(s0, s, j, t.quantity, r);
    }
  }

  // Trade k was struck between buy pairs[k].0 and sell pairs[k].1 of the sorted book.
  type Pairs = seq<(nat, nat)>

  // What buy i has taken, and what sell j has given.
  function Taken(trades: seq<TradeExecution>, pairs: Pairs, i: nat): nat
    requires |pairs| == |trades|
  {
    if trades == [] then 0
    else
      var n := |trades| - 1;
      Taken(trades[..n], pairs[..n], i) + if pairs[n].0 == i then trades[n].quantity else 0
  }

  function Given(trades: seq<TradeExecution>, pairs: Pairs, j: nat): nat
    requires |pairs| == |trades|
  {
    if trades == [] then 0
    else
      var n := |trades| - 1;
      Given(trades[..n], pairs[..n], j) + if pairs[n].1 == j then trades[n].quantity else 0
  }

  // The trades of every single order add up to what it was filled by.
  ghost predicate Accounted(b0: seq<MarketOrder>, b: seq<MarketOrder>, s0: seq<MarketOrder>, s: seq<MarketOrder>,
                            trades: seq<TradeExecution>, pairs: Pairs)
  {
    && |b0| == |b| && |s0| == |s| && |pairs| == |trades|
    && (forall i :: 0 <= i < |b| ==> Taken(trades, pairs, i) == b0[i].quantity - b[i].quantity)
    && (forall j :: 0 <= j < |s| ==> Given(trades, pairs, j) == s0[j].quantity - s[j].quantity)
  }

  lemma TradeIsAccounted(b0: seq<MarketOrder>, b: seq<MarketOrder>, s0: seq<MarketOrder>, s: seq<MarketOrder>,
                         trades: seq<TradeExecution>, pairs: Pairs, i: nat, j: nat, t: TradeExecution)
    requires Accounted(b0, b, s0, s, trades, pairs) && i < |b| && j < |s|
    requires t.quantity <= b[i].quantity && t.quantity <= s[j].quantity
    ensures Accounted(b0, Fill(b, i, t.quantity), s0, Fill(s, j, t.quantity), trades + [t], pairs + [(i, j)])
  {
    assert (trades + [t])[..|trades|] == trades && (pairs + [(i, j)])[..|pairs|] == pairs;
  }

  ghost predicate Struck(b: seq<MarketOrder>, s: seq<MarketOrder>, trades: seq<TradeExecution>, pairs: Pairs) {
    && |pairs| == |trades|
    && forall k :: 0 <= k < |trades| ==>
         && pairs[k].0 < |b| && pairs[k].1 < |s|
         && b[pairs[k].0].resourceId == s[pairs[k].1].resourceId == trades[k].resourceId
         && trades[k].quantity > 0
         && trades[k].unitPrice == s[pairs[k].1].limitPrice <= b[pairs[k].0].limitPrice
         && trades[k].totalPrice == trades[k].quantity * trades[k].unitPrice
  }

  ghost predicate Tallied(result: MatchResult) {
    && result.warnings == 0
    && result.totalQuantity == Quantity(result.trades) % (U64_MAX + 1)
    && result.totalValue == Worth(result.trades) % (U64_MAX + 1)
  }

  // What holds throughout the nested loop.
  ghost predicate Booked(b0: seq<MarketOrder>, b: seq<MarketOrder>, s0: seq<MarketOrder>, s: seq<MarketOrder>,
                         result: MatchResult, pairs: Pairs)
  {
    && Matched(b0, b, s0, s)
    && Conserved(b0, b, s0, s, result.trades)
    && Struck(b0, s0, result.trades, pairs)
    && Accounted(b0, b, s0, s, result.trades, pairs)
    && Priced(s0, s, result.trades)
    && Tallied(result)
  }

  function Strike(buy: MarketOrder, sell: MarketOrder): (t: TradeExecution)
    requires Crosses(buy, sell) && Min(buy.quantity, sell.quantity) * sell.limitPrice <= U64_MAX
    ensures t.quantity <= buy.quantity && t.quantity <= sell.quantity
    ensures t.quantity == buy.quantity || t.quantity == sell.quantity
  {
    var quantity := Min(buy.quantity, sell.quantity);
    assert quantity * sell.limitPrice >= 0;
    TradeExecution(buy.resourceId, quantity, sell.limitPrice, quantity * sell.limitPrice)
  }

  function Record(result: MatchResult, t: TradeExecution): MatchResult {
    MatchResult(result.trades + [t], result.warnings,
                WrapAdd(result.totalQuantity, t.quantity), WrapAdd(result.totalValue, t.totalPrice))
  }

  lemma RecordTallies(result: MatchResult, t: TradeExecution)
    requires Tallied(result)
    ensures Tallied(Record(result, t))
  {
    assert (result.trades + [t])[..|result.trades|] == result.trades;
    WrapAddIsModular(Quantity(result.trades), t.quantity);
    WrapAddIsModular(Worth(result.trades), t.totalPrice);
  }

  lemma TradeKeepsBook(b0: seq<MarketOrder>, b: seq<MarketOrder>, s0: seq<MarketOrder>, s: seq<MarketOrder>,
                       result: MatchResult, pairs: Pairs, i: nat, j: nat, t: TradeExecution)
    requires SortedBy(BuyLe, b0) && SortedBy(SellLe, s0)
    requires Booked(b0, b, s0, s, result, pairs) && i < |b| && j < |s| && Progress(b0, b, s, i, j)
    requires Crosses(b[i], s[j]) && b[i].quantity > 0 && s[j].quantity > 0
    requires Min(b[i].quantity, s[j].quantity) * s[j].limitPrice <= U64_MAX && t == Strike(b[i], s[j])
    ensures Booked(b0, Fill(b, i, t.quantity), s0, Fill(s, j, t.quantity), Record(result, t), pairs + [(i, j)])
    ensures Progress(b0, Fill(b, i, t.quantity), Fill(s, j, t.quantity), i, j + 1)
  {
    TradeKeepsOrder(b0, b, s0, s, i, j, t.quantity);
    TradeConserves(b0, b, s0, s, result.trades, i, j, t);
    TradeIsAccounted(b0, b, s0, s, result.trades, pairs, i, j, t);
    TradeIsPriced(s0, s, result.trades, j, t);
    RecordTallies(result, t);
    FillKeepsProgress(b0, b, s0, s, i, j, t.quantity);
  }

  lemma FillKeepsProgress(b0: seq<MarketOrder>, b: seq<MarketOrder>, s0: seq<MarketOrder>, s: seq<MarketOrder>,
                          i: nat, j: nat, q: u64)
    requires |b0| == |b| && i < |b| && j < |s| && Progress(b0, b, s, i, j)
    requires q <= b[i].quantity && q <= s[j].quantity && (q == b[i].quantity || q == s[j].quantity)
    ensures Progress(b0, Fill(b, i, q), Fill(s, j, q), i, j + 1)
  {
    var b', s' := Fill(b, i, q), Fill(s, j, q);
    forall m, n | 0 <= m < i && 0 <= n < |s'| ensures Spent(b'[m], s'[n]) { assert Spent(b[m], s[n]); }
    forall n | 0 <= n < j ensures Spent(b'[i], s'[n]) { assert Spent(b[i], s[n]); }
  }

  lemma TradeValueFits(q: nat, o: MarketOrder)
    requires Valid(o) && q <= o.quantity
    ensures 0 <= q * o.limitPrice <= U64_MAX
  {
    MulMonotone(o.limitPrice, q, o.quantity);
  }

  lemma PassOver(b0: seq<MarketOrder>, b: seq<MarketOrder>, s: seq<MarketOrder>, i: nat, j: nat)
    requires |b0| == |b| && i < |b| && j < |s| && Progress(b0, b, s, i, j) && Spent(b[i], s[j])
    ensures Progress(b0, b, s, i, j + 1)
  {
  }

  lemma BuyDone(b0: seq<MarketOrder>, b: seq<MarketOrder>, s: seq<MarketOrder>, i: nat, j: nat)
    requires |b0| == |b| && i < |b| && j <= |s| && Progress(b0, b, s, i, j)
    requires j == |s| || b[i].quantity == 0
    ensures Progress(b0, b, s, i + 1, 0)
  {
    forall m, n | 0 <= m < i + 1 && 0 <= n < |s| ensures Spent(b[m], s[n]) {
      if m < i { assert Spent(b[m], s[n]); } else if b[i].quantity != 0 { assert Spent(b[i], s[n]); }
    }
  }

  // One crossing pair.  The source skips a trade whose value overflows; that cannot happen.
  method Execute(b0: seq<MarketOrder>, buys: seq<MarketOrder>, s0: seq<MarketOrder>, sells: seq<MarketOrder>,
                 sofar: MatchResult, ghost struck: Pairs, i: nat, j: nat)
    returns (b: seq<MarketOrder>, s: seq<MarketOrder>, result: MatchResult, ghost pairs: Pairs)
    requires SortedBy(BuyLe, b0) && SortedBy(SellLe, s0) && j < |sells| && |sells| == |s0| && Valid(s0[j])
    requires Booked(b0, buys, s0, sells, sofar, struck) && i < |buys| && Progress(b0, buys, sells, i, j)
    requires Crosses(buys[i], sells[j]) && buys[i].quantity > 0 && sells[j].quantity > 0
    ensures Booked(b0, b, s0, s, result, pairs)
    ensures Progress(b0, b, s, i, j + 1)
  {
    var quantity := Min(buys[i].quantity, sells[j].quantity);
    TradeValueFits(quantity, s0[j]);
    MulOverflowsExactly(quantity, sells[j].limitPrice);
    if MulOverflows(quantity, sells[j].limitPrice) {
      assert false;
    }
    var trade := Strike(buys[i], sells[j]);
    TradeKeepsBook(b0, buys, s0, sells, sofar, struck, i, j, trade);
    b, s := Fill(buys, i, trade.quantity), Fill(sells, j, trade.quantity);
    result, pairs := Record(sofar, trade), struck + [(i, j)];
  }

  // The inner loop: one buy order against every sell order.
  method MatchBuy(b0: seq<MarketOrder>, buys: seq<MarketOrder>, s0: seq<MarketOrder>, sells: seq<MarketOrder>,
                  sofar: MatchResult, ghost struck: Pairs, i: nat)
    returns (b: seq<MarketOrder>, s: seq<MarketOrder>, result: MatchResult, ghost pairs: Pairs)
    requires SortedBy(BuyLe, b0) && SortedBy(SellLe, s0)
    requires forall k :: 0 <= k < |s0| ==> Valid(s0[k])
    requires Booked(b0, buys, s0, sells, sofar, struck) && i < |buys| && Progress(b0, buys, sells, i, 0)
    ensures Booked(b0, b, s0, s, result, pairs) && Progress(b0, b, s, i + 1, 0)
  {
    b, s, result, pairs := buys, sells, sofar, struck;
    var j := 0;
    while j < |s|
      invariant j <= |s|
      invariant Booked(b0, b, s0, s, result, pairs)
      invariant Progress(b0, b, s, i, j)
    {
      if b[i].quantity == 0 { break; }
      if s[j].quantity == 0 || b[i].resourceId != s[j].resourceId || b[i].limitPrice < s[j].limitPrice {
        PassOver(b0, b, s, i, j);
      } else {
        b, s, result, pairs := Execute(b0, b, s0, s, result, pairs, i, j);
      }
      j := j + 1;
    }
    BuyDone(b0, b, s, i, j);
  }

  method MatchSorted(b0: seq<MarketOrder>, s0: seq<MarketOrder>)
    returns (b: seq<MarketOrder>, s: seq<MarketOrder>, result: MatchResult, ghost pairs: Pairs)
    requires SortedBy(BuyLe, b0) && SortedBy(SellLe, s0)
    requires forall k :: 0 <= k < |s0| ==> Valid(s0[k])
    ensures Booked(b0, b, s0, s, result, pairs)
    ensures forall i, j :: 0 <= i < |b| && 0 <= j < |s| ==> Spent(b[i], s[j])
  {
    b, s, pairs := b0, s0, [];
    result := MatchResult([], 0, 0, 0);
    NothingPriced(s0);
    for i := 0 to |b0|
      invariant Booked(b0, b, s0, s, result, pairs) && Progress(b0, b, s, i, 0)
    {
      b, s, result, pairs := MatchBuy(b0, b, s0, s, result, pairs, i);
    }
  }

  // ---- the clearing price ----

  // Everyone strictly better than p is served in full; nobody strictly worse is served at all.
  ghost predicate Clears(p: int, r: string, b0: seq<MarketOrder>, b: seq<MarketOrder>,
                         s0: seq<MarketOrder>, s: seq<MarketOrder>)
    requires |b0| == |b| && |s0| == |s|
  {
    && (forall i :: 0 <= i < |b| && b[i].resourceId == r ==>
          && (b[i].limitPrice > p ==> b[i].quantity == 0) && (Touched(b0, b, i) ==> b[i].limitPrice >= p))
    && (forall j :: 0 <= j < |s| && s[j].resourceId == r ==>
          && (s[j].limitPrice < p ==> s[j].quantity == 0) && (Touched(s0, s, j) ==> s[j].limitPrice <= p))
  }

  ghost predicate NoneCross(b: seq<MarketOrder>, s: seq<MarketOrder>) {
    forall i, j :: 0 <= i < |b| && 0 <= j < |s| ==> Spent(b[i], s[j])
  }

  // The least price that every unserved buyer and every served seller can accept.
  ghost predicate Needs(o: MarketOrder, r: string, needed: bool, p: int) {
    o.resourceId == r && needed ==> o.limitPrice <= p
  }

  lemma ClearingPriceExists(r: string, b0: seq<MarketOrder>, b: seq<MarketOrder>,
                            s0: seq<MarketOrder>, s: seq<MarketOrder>) returns (p: nat)
    requires SortedBy(BuyLe, b0) && SortedBy(SellLe, s0) && Matched(b0, b, s0, s) && NoneCross(b, s)
    ensures Clears(p, r, b0, b, s0, s)
    ensures p <= U64_MAX
  {
    p := 0;
    ghost var ofBuy, ofSell := -1, -1;
    for i := 0 to |b|
      invariant forall k :: 0 <= k < i ==> Needs(b[k], r, b[k].quantity > 0, p)
      invariant -1 <= ofBuy < i && (ofBuy == -1 ==> p == 0)
      invariant ofBuy >= 0 ==> b[ofBuy].resourceId == r && b[ofBuy].quantity > 0 && b[ofBuy].limitPrice == p
    {
      if b[i].resourceId == r && b[i].quantity > 0 && b[i].limitPrice > p { p, ofBuy := b[i].limitPrice, i; }
    }
    for j := 0 to |s|
      invariant forall k :: 0 <= k < |b| ==> Needs(b[k], r, b[k].quantity > 0, p)
      invariant forall k :: 0 <= k < j ==> Needs(s[k], r, Touched(s0, s, k), p)
      invariant -1 <= ofSell < j && -1 <= ofBuy < |b|
      invariant ofSell == -1 ==> (ofBuy == -1 ==> p == 0)
      invariant ofSell == -1 && ofBuy >= 0 ==>
        b[ofBuy].resourceId == r && b[ofBuy].quantity > 0 && b[ofBuy].limitPrice == p
      invariant ofSell >= 0 ==> s[ofSell].resourceId == r && Touched(s0, s, ofSell) && s[ofSell].limitPrice == p
    {
      if s[j].resourceId == r && Touched(s0, s, j) && s[j].limitPrice > p { p, ofSell := s[j].limitPrice, j; }
    }
    forall i | 0 <= i < |b| && b[i].resourceId == r
      ensures (b[i].limitPrice > p ==> b[i].quantity == 0) && (Touched(b0, b, i) ==> b[i].limitPrice >= p)
    {
      assert Needs(b[i], r, b[i].quantity > 0, p);
      if Touched(b0, b, i) && ofSell == -1 && ofBuy >= 0 && ofBuy != i {
        if ofBuy > i { assert BuyLe(b0[i], b0[ofBuy]); }
      }
    }
    forall j | 0 <= j < |s| && s[j].resourceId == r
      ensures (s[j].limitPrice < p ==> s[j].quantity == 0) && (Touched(s0, s, j) ==> s[j].limitPrice <= p)
    {
      assert Needs(s[j], r, Touched(s0, s, j), p);
      if 0 <= ofSell < j { assert SellLe(s0[ofSell], s0[j]); }
      if s[j].limitPrice < p && ofSell < 0 { assert Spent(b[ofBuy], s[j]); }
    }
  }

  // ---- traded volume ----

  lemma {:induction false} ServedBand(was: seq<MarketOrder>, now: seq<MarketOrder>, r: string, lo: int, hi: int)
    requires Used(was, now)
    requires forall k :: 0 <= k < |now| && InBand(now[k], r, lo, hi) ==> now[k].quantity == 0
    ensures Depth(was, r, lo, hi) <= Total(was, r) - Total(now, r)
  {
    if was != [] {
      var n := |was| - 1;
      ServedBand(was[..n], now[..n], r, lo, hi);
      assert was[n].limitPrice == now[n].limitPrice;
    }
  }

  lemma {:induction false} TouchedBand(was: seq<MarketOrder>, now: seq<MarketOrder>, r: string, lo: int, hi: int)
    requires Used(was, now)
    requires forall k :: 0 <= k < |now| && now[k].resourceId == r && Touched(was, now, k) ==> InBand(now[k], r, lo, hi)
    ensures Total(was, r) - Total(now, r) == Depth(was, r, lo, hi) - Depth(now, r, lo, hi)
  {
    if was != [] {
      var n := |was| - 1;
      assert forall k :: 0 <= k < n && Touched(was[..n], now[..n], k) ==> Touched(was, now, k);
      TouchedBand(was[..n], now[..n], r, lo, hi);
      assert Touched(was, now, n) || now[n].quantity == was[n].quantity;
    }
  }

  lemma {:induction false} EmptyBand(orders: seq<MarketOrder>, r: string, lo: int, hi: int) returns (k: nat)
    requires Depth(orders, r, lo, hi) > 0
    ensures k < |orders| && InBand(orders[k], r, lo, hi) && orders[k].quantity > 0
  {
    var n := |orders| - 1;
    if InBand(orders[n], r, lo, hi) && orders[n].quantity > 0 { return n; }
    k := EmptyBand(orders[..n], r, lo, hi);
  }

  lemma CrossingPair(b: seq<MarketOrder>, s: seq<MarketOrder>, i: nat, j: nat)
    requires i < |b| && j < |s| && Crosses(b[i], s[j]) && b[i].quantity > 0 && s[j].quantity > 0
    ensures !NoneCross(b, s)
  {
    assert !Spent(b[i], s[j]);
  }

  // What a uniform price would trade.
  function AtPrice(buys: seq<MarketOrder>, sells: seq<MarketOrder>, r: string, p: nat): nat {
    Min(Demand(buys, r, p), Supply(sells, r, p))
  }

  // Some uniform price trades exactly v, and none trades more.
  ghost predicate MaximalVolume(v: nat, buys: seq<MarketOrder>, sells: seq<MarketOrder>, r: string) {
    (exists p: nat :: AtPrice(buys, sells, r, p) == v) && (forall q: nat :: AtPrice(buys, sells, r, q) <= v)
  }

  // At the clearing price the volume is all of one side; at any other price it is no less.
  lemma VolumeIsMaximal(p: nat, q: nat, r: string, b0: seq<MarketOrder>, b: seq<MarketOrder>,
                        s0: seq<MarketOrder>, s: seq<MarketOrder>, v: nat)
    requires Used(b0, b) && Used(s0, s) && NoneCross(b, s) && Clears(p, r, b0, b, s0, s) && p <= U64_MAX
    requires v == Total(b0, r) - Total(b, r) == Total(s0, r) - Total(s, r)
    ensures v == AtPrice(b0, s0, r, p)
    ensures v >= AtPrice(b0, s0, r, q)
  {
    TouchedBand(b0, b, r, p, U64_MAX);
    TouchedBand(s0, s, r, 0, p);
    if Demand(b, r, p) > 0 && Supply(s, r, p) > 0 {
      var i := EmptyBand(b, r, p, U64_MAX);
      var j := EmptyBand(s, r, 0, p);
      CrossingPair(b, s, i, j);
    }
    if q > p {
      ServedBand(b0, b, r, q, U64_MAX);
    } else if q < p {
      ServedBand(s0, s, r, 0, q);
    }
  }

  // ---- payments ----

  function Paid(trades: seq<TradeExecution>, pairs: Pairs, i: nat): nat
    requires |pairs| == |trades|
  {
    if trades == [] then 0
    else
      var n := |trades| - 1;
      Paid(trades[..n], pairs[..n], i) + if pairs[n].0 == i then trades[n].totalPrice else 0
  }

  function Received(trades: seq<TradeExecution>, pairs: Pairs, j: nat): nat
    requires |pairs| == |trades|
  {
    if trades == [] then 0
    else
      var n := |trades| - 1;
      Received(trades[..n], pairs[..n], j) + if pairs[n].1 == j then trades[n].totalPrice else 0
  }

  lemma OnePayment(limit: nat, taken: nat, quantity: nat, price: nat)
    requires price <= limit
    ensures limit * taken + quantity * price <= limit * (taken + quantity)
  {
    MulMonotone(quantity, price, limit);
    assert limit * (taken + quantity) == limit * taken + limit * quantity;
  }

  lemma {:induction false} PaidForTaken(b: seq<MarketOrder>, s: seq<MarketOrder>, trades: seq<TradeExecution>,
                                        pairs: Pairs, i: nat)
    requires Struck(b, s, trades, pairs) && i < |b|
    ensures Paid(trades, pairs, i) <= b[i].limitPrice * Taken(trades, pairs, i)
  {
    if trades != [] {
      var n := |trades| - 1;
      PaidForTaken(b, s, trades[..n], pairs[..n], i);
      if pairs[n].0 == i {
        OnePayment(b[i].limitPrice, Taken(trades[..n], pairs[..n], i), trades[n].quantity, trades[n].unitPrice);
      }
    }
  }

  // No buyer pays more than its limit for each unit its own order was filled by.
  lemma PaidWithinLimit(b0: seq<MarketOrder>, b: seq<MarketOrder>, s0: seq<MarketOrder>, s: seq<MarketOrder>,
                        trades: seq<TradeExecution>, pairs: Pairs, i: nat)
    requires Used(b0, b) && Struck(b0, s0, trades, pairs) && Accounted(b0, b, s0, s, trades, pairs) && i < |b|
    ensures Paid(trades, pairs, i) <= b0[i].limitPrice * (b0[i].quantity - b[i].quantity)
    ensures b0[i].limitPrice * (b0[i].quantity - b[i].quantity) <= b0[i].limitPrice * b0[i].quantity
  {
    PaidForTaken(b0, s0, trades, pairs, i);
    MulMonotone(b0[i].limitPrice, b0[i].quantity - b[i].quantity, b0[i].quantity);
  }

  lemma OneReceipt(price: nat, given: int, quantity: nat)
    ensures price * given + quantity * price == price * (given + quantity)
  {
  }

  lemma {:induction false} ReceivedForGiven(b: seq<MarketOrder>, s: seq<MarketOrder>, trades: seq<TradeExecution>,
                                            pairs: Pairs, j: nat)
    requires Struck(b, s, trades, pairs) && j < |s|
    ensures Received(trades, pairs, j) == s[j].limitPrice * Given(trades, pairs, j)
  {
    if trades != [] {
      var n := |trades| - 1;
      ReceivedForGiven(b, s, trades[..n], pairs[..n], j);
      if pairs[n].1 == j { OneReceipt(s[j].limitPrice, Given(trades[..n], pairs[..n], j), trades[n].quantity); }
    }
  }

  // Every seller receives exactly its limit for each unit its own order was filled by.
  lemma ReceivesItsLimit(b0: seq<MarketOrder>, b: seq<MarketOrder>, s0: seq<MarketOrder>, s: seq<MarketOrder>,
                         trades: seq<TradeExecution>, pairs: Pairs, j: nat)
    requires Struck(b0, s0, trades, pairs) && Accounted(b0, b, s0, s, trades, pairs) && j < |s|
    ensures Received(trades, pairs, j) == s0[j].limitPrice * (s0[j].quantity - s[j].quantity)
  {
    ReceivedForGiven(b0, s0, trades, pairs, j);
  }

  // ---- the least money ----

  // The area under the supply curve below a price: what sellers asking less than p gain at p.
  function Surplus(orders: seq<MarketOrder>, r: string, p: nat): nat {
    if p == 0 then 0 else Surplus(orders, r, p - 1) + Supply(orders, r, p - 1)
  }

  lemma {:induction false} SurplusOfNone(r: string, p: nat)
    ensures Surplus([], r, p) == 0
  {
    if p > 0 { SurplusOfNone(r, p - 1); }
  }

  lemma {:induction false} SurplusSnoc(orders: seq<MarketOrder>, r: string, p: nat)
    requires orders != []
    ensures var o := orders[|orders| - 1];
      Surplus(orders, r, p) == Surplus(orders[..|orders| - 1], r, p)
        + if o.resourceId == r then Max(0, p - o.limitPrice) * o.quantity else 0
  {
    if p == 0 {
      assert 0 * orders[|orders| - 1].quantity == 0;
    } else {
      SurplusSnoc(orders, r, p - 1);
      var o := orders[|orders| - 1];
      if o.limitPrice < p {
        assert (p - o.limitPrice) * o.quantity == (p - 1 - o.limitPrice) * o.quantity + o.quantity;
      }
    }
  }

  lemma {:induction false} SurplusPermuted(a: seq<MarketOrder>, b: seq<MarketOrder>, r: string, p: nat)
    requires multiset(a) == multiset(b)
    ensures Surplus(a, r, p) == Surplus(b, r, p)
  {
    if p > 0 {
      SurplusPermuted(a, b, r, p - 1);
      DepthPermuted(a, b, r, 0, p - 1);
    }
  }

  // One order: taking `taken` of its units costs at least p each, less what it gains at p; and exactly
  // that when an order asking less is taken whole and an order asking more is left alone.
  lemma OneCost(limit: nat, quantity: nat, taken: nat, p: nat)
    requires taken <= quantity
    ensures limit * taken + Max(0, p - limit) * quantity >= p * taken
    ensures (limit < p ==> taken == quantity) && (limit > p ==> taken == 0) ==>
      limit * taken + Max(0, p - limit) * quantity == p * taken
  {
    if limit < p {
      MulMonotone(p - limit, taken, quantity);
      assert p * taken == limit * taken + (p - limit) * taken;
    } else {
      MulMonotone(taken, p, limit);
    }
  }

  // Orders asking less than p are taken whole, and orders asking more are left alone.
  ghost predicate CheapestFirst(was: seq<MarketOrder>, now: seq<MarketOrder>, r: string, p: nat)
    requires |was| == |now|
  {
    forall j :: 0 <= j < |now| && now[j].resourceId == r ==>
      && (now[j].limitPrice < p ==> now[j].quantity == 0) && (Touched(was, now, j) ==> now[j].limitPrice <= p)
  }

  lemma CheapestFirstSnoc(was: seq<MarketOrder>, now: seq<MarketOrder>, r: string, p: nat)
    requires Used(was, now) && was != [] && CheapestFirst(was, now, r, p)
    ensures var n := |was| - 1;
      && CheapestFirst(was[..n], now[..n], r, p)
      && (was[n].resourceId == r ==> (was[n].limitPrice < p ==> now[n].quantity == 0)
                                     && (was[n].limitPrice > p ==> now[n].quantity == was[n].quantity))
  {
    var n := |was| - 1;
    assert forall j :: 0 <= j < n && Touched(was[..n], now[..n], j) ==> Touched(was, now, j);
    assert now[n].quantity != was[n].quantity ==> Touched(was, now, n);
  }

  lemma TotalSnoc(was: seq<MarketOrder>, now: seq<MarketOrder>, r: string)
    requires Used(was, now) && was != []
    ensures var n := |was| - 1;
      Total(was, r) - Total(now, r) == Total(was[..n], r) - Total(now[..n], r)
        + if was[n].resourceId == r then was[n].quantity - now[n].quantity else 0
  {
  }

  // Whatever units of a resource are taken, they cost at least this much; the cheapest first, exactly.
  lemma {:induction false} CostAtPrice(was: seq<MarketOrder>, now: seq<MarketOrder>, r: string, p: nat)
    requires Used(was, now)
    ensures Cost(was, now, r) + Surplus(was, r, p) >= p * (Total(was, r) - Total(now, r))
    ensures CheapestFirst(was, now, r, p) ==>
      Cost(was, now, r) + Surplus(was, r, p) == p * (Total(was, r) - Total(now, r))
  {
    hide Surplus, CheapestFirst, Depth;
    if was == [] {
      SurplusOfNone(r, p);
      assert Total(was, r) == Total(now, r);
      assert p * 0 == 0;
    } else {
      var n := |was| - 1;
      CostAtPrice(was[..n], now[..n], r, p);
      SurplusSnoc(was, r, p);
      TotalSnoc(was, now, r);
      if CheapestFirst(was, now, r, p) { CheapestFirstSnoc(was, now, r, p); }
      if was[n].resourceId == r {
        OneCost(was[n].limitPrice, was[n].quantity, was[n].quantity - now[n].quantity, p);
        OneReceipt(p, Total(was[..n], r) - Total(now[..n], r), was[n].quantity - now[n].quantity);
      }
    }
  }

  // `money` is the least that v units of a resource can cost.
  ghost predicate LeastMoney(money: int, v: nat, sells: seq<MarketOrder>, r: string) {
    && (exists p: nat :: money + Surplus(sells, r, p) == p * v)
    && (forall p: nat :: money + Surplus(sells, r, p) >= p * v)
  }

  // No way of taking v units from these sells costs less.
  lemma LeastMoneyIsLeast(money: int, v: nat, was: seq<MarketOrder>, now: seq<MarketOrder>, r: string)
    requires LeastMoney(money, v, was, r) && Used(was, now) && Total(was, r) - Total(now, r) == v
    ensures money <= Cost(was, now, r)
  {
    var p: nat :| money + Surplus(was, r, p) == p * v;
    CostAtPrice(was, now, r, p);
  }

  // Volume and money do not depend on how ties between orders were broken.
  lemma TiesDoNotMatter(v: nat, a: int, w: nat, b: int, buys: seq<MarketOrder>, sells: seq<MarketOrder>, r: string)
    requires MaximalVolume(v, buys, sells, r) && LeastMoney(a, v, sells, r)
    requires MaximalVolume(w, buys, sells, r) && LeastMoney(b, w, sells, r)
    ensures v == w && a == b
  {
    var p: nat :| a + Surplus(sells, r, p) == p * v;
    var q: nat :| b + Surplus(sells, r, q) == q * w;
    assert b + Surplus(sells, r, p) >= p * w && a + Surplus(sells, r, q) >= q * v;
  }

  // ---- the whole operation ----

  // The sorted, filtered book a run of the matcher works on.
  ghost predicate SortedBook(orders: seq<MarketOrder>, le: (MarketOrder, MarketOrder) -> bool, book: seq<MarketOrder>) {
    SortedBy(le, book) && multiset(book) == multiset(ValidOnly(orders))
  }

  ghost predicate HasClearingPrice(r: string, b0: seq<MarketOrder>, b: seq<MarketOrder>,
                                   s0: seq<MarketOrder>, s: seq<MarketOrder>)
    requires |b0| == |b| && |s0| == |s|
  {
    exists p: nat :: Clears(p, r, b0, b, s0, s)
  }

  lemma MoneyIsLeast(p: nat, r: string, v: nat, sells: seq<MarketOrder>, b0: seq<MarketOrder>, b: seq<MarketOrder>,
                     s0: seq<MarketOrder>, s: seq<MarketOrder>)
    requires Used(b0, b) && Used(s0, s) && multiset(sells) == multiset(s0) && Clears(p, r, b0, b, s0, s)
    requires v == Total(s0, r) - Total(s, r)
    ensures LeastMoney(Cost(s0, s, r), v, sells, r)
  {
    forall q: nat ensures Cost(s0, s, r) + Surplus(sells, r, q) >= q * v {
      SurplusPermuted(sells, s0, r, q);
      CostAtPrice(s0, s, r, q);
    }
    SurplusPermuted(sells, s0, r, p);
    assert CheapestFirst(s0, s, r, p);
    CostAtPrice(s0, s, r, p);
  }

  // Every resource clears at some price; no uniform price trades more; and what is traded could not
  // have been bought for less.
  lemma MatchedOutcome(buys: seq<MarketOrder>, sells: seq<MarketOrder>, r: string, v: nat,
                       b0: seq<MarketOrder>, b: seq<MarketOrder>, s0: seq<MarketOrder>, s: seq<MarketOrder>)
    requires multiset(buys) == multiset(b0) && multiset(sells) == multiset(s0)
    requires SortedBy(BuyLe, b0) && SortedBy(SellLe, s0) && Matched(b0, b, s0, s) && NoneCross(b, s)
    requires v == Total(b0, r) - Total(b, r) == Total(s0, r) - Total(s, r)
    ensures HasClearingPrice(r, b0, b, s0, s)
    ensures MaximalVolume(v, buys, sells, r)
    ensures LeastMoney(Cost(s0, s, r), v, sells, r)
  {
    var p := ClearingPriceExists(r, b0, b, s0, s);
    forall q: nat ensures AtPrice(buys, sells, r, q) == AtPrice(b0, s0, r, q) {
      DepthPermuted(buys, b0, r, q, U64_MAX);
      DepthPermuted(sells, s0, r, 0, q);
    }
    VolumeIsMaximal(p, p, r, b0, b, s0, s, v);
    assert AtPrice(buys, sells, r, p) == v;
    forall q: nat ensures AtPrice(buys, sells, r, q) <= v {
      VolumeIsMaximal(p, q, r, b0, b, s0, s, v);
    }
    MoneyIsLeast(p, r, v, sells, b0, b, s0, s);
  }

  method MatchOrders(buyOrders: seq<MarketOrder>, sellOrders: seq<MarketOrder>)
    returns (result: MatchResult, ghost b0: seq<MarketOrder>, ghost b: seq<MarketOrder>,
             ghost s0: seq<MarketOrder>, ghost s: seq<MarketOrder>, ghost pairs: Pairs)
    ensures result.warnings == |buyOrders| - |ValidOnly(buyOrders)| + |sellOrders| - |ValidOnly(sellOrders)|
    ensures result.totalQuantity == Quantity(result.trades) % (U64_MAX + 1)
    ensures result.totalValue == Worth(result.trades) % (U64_MAX + 1)
    ensures forall r :: MaximalVolume(Volume(result.trades, r), ValidOnly(buyOrders), ValidOnly(sellOrders), r)
    ensures forall r ::
      LeastMoney(Value(result.trades, r), Volume(result.trades, r), ValidOnly(sellOrders), r)
    ensures SortedBook(buyOrders, BuyLe, b0) && SortedBook(sellOrders, SellLe, s0)
    ensures Used(b0, b) && Used(s0, s) && NoneCross(b, s)
    ensures Conserved(b0, b, s0, s, result.trades) && Struck(b0, s0, result.trades, pairs)
    ensures Accounted(b0, b, s0, s, result.trades, pairs)
    ensures forall r :: HasClearingPrice(r, b0, b, s0, s)
  {
    var buys, droppedBuys := RemoveInvalid(buyOrders);
    var sells, droppedSells := RemoveInvalid(sellOrders);
    OrderingsAreTotal();
    var sortedBuys := Sort(BuyLe, buys);
    var sortedSells := Sort(SellLe, sells);
    b0, s0 := sortedBuys, sortedSells;
    forall k | 0 <= k < |s0| ensures Valid(s0[k]) { assert s0[k] in multiset(s0); }
    var restBuys, restSells;
    restBuys, restSells, result, pairs := MatchSorted(sortedBuys, sortedSells);
    b, s := restBuys, restSells;
    forall r
      ensures HasClearingPrice(r, b0, b, s0, s) && MaximalVolume(Volume(result.trades, r), buys, sells, r)
      ensures LeastMoney(Value(result.trades, r), Volume(result.trades, r), sells, r)
    {
      MatchedOutcome(buys, sells, r, Volume(result.trades, r), b0, b, s0, s);
    }
    result := result.(warnings := droppedBuys + droppedSells + result.warnings);
  }
}
