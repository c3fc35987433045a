// The market's demand table, its price list, and the summary report.
module MarketListing {
  import opened U64
  import opened Sorting
  import opened Records
  import opened Storage
  import opened DataRegistry
  import opened Market

  type Demands = map<string, u64>

  function Demanded(m: Demands, r: string): u64 { if r in m then m[r] else 0 }

  // Setting a demand of zero withdraws it.
  function WithDemand(m: Demands, r: string, demand: u64): Demands {
    if r == [] then m else if demand == 0 then m - {r} else m[r := demand]
  }

  predicate ProperDemands(m: Demands) { forall r <- m :: r != [] && m[r] > 0 }

  class MarketState {
    var demands: Demands

    constructor ()
      ensures demands == map[]
    {
      demands := map[];
    }

    method SetDemand(r: string, demand: u64) returns (errors: nat)
      modifies this
      ensures errors == 0 <==> r != []
      ensures demands == WithDemand(old(demands), r, demand)
    {
      if r == [] { return 1; }
      if demand == 0 {
        demands := demands - {r};
        return 0;
      }
      demands := demands[r := demand];
      return 0;
    }
  }

  // ---- the price list ----

  function RowOf(registry: Registry, stock: Stock, demands: Demands, r: string): MarketPrice
    requires r in registry.resources
  {
    CalculatePrice(r, registry.resources[r], Amount(stock, r), Demanded(demands, r))
  }

  predicate IsRow(p: MarketPrice, registry: Registry, stock: Stock, demands: Demands, ids: set<string>) {
    p.resourceId in ids && p.resourceId in registry.resources && p == RowOf(registry, stock, demands, p.resourceId)
  }

  const ID: MarketPrice -> string := (p: MarketPrice) => p.resourceId

  ghost predicate Rows(prices: seq<MarketPrice>, registry: Registry, stock: Stock, demands: Demands, ids: set<string>) {
    && (forall i :: 0 <= i < |prices| ==> IsRow(prices[i], registry, stock, demands, ids))
    && (forall i, j :: 0 <= i < j < |prices| ==> prices[i].resourceId != prices[j].resourceId)
    && (forall r :: r in ids && r in registry.resources ==> exists i :: 0 <= i < |prices| && prices[i].resourceId == r)
  }

  predicate ById(a: MarketPrice, b: MarketPrice) { StrLe(a.resourceId, b.resourceId) }

  // The list the market must show: one row per listed resource, in strictly ascending order.
  ghost predicate IsListing(prices: seq<MarketPrice>, registry: Registry, stock: Stock, demands: Demands) {
    && Rows(prices, registry, stock, demands, stock.Keys + demands.Keys)
    && SortedBy(ById, prices)
  }

  lemma AppendRow(prices: seq<MarketPrice>, registry: Registry, stock: Stock, demands: Demands, ids: set<string>,
                  r: string)
    requires Rows(prices, registry, stock, demands, ids) && r !in ids
    ensures r in registry.resources ==>
      Rows(prices + [RowOf(registry, stock, demands, r)], registry, stock, demands, ids + {r})
    ensures r !in registry.resources ==> Rows(prices, registry, stock, demands, ids + {r})
  {
    if r in registry.resources {
      var more := prices + [RowOf(registry, stock, demands, r)];
      assert more[|prices|].resourceId == r;
      forall q | q in ids + {r} && q in registry.resources
        ensures exists i :: 0 <= i < |more| && more[i].resourceId == q
      {
        if q != r {
          var i :| 0 <= i < |prices| && prices[i].resourceId == q;
          assert more[i].resourceId == q;
        }
      }
    }
  }

  lemma RowsPermuted(a: seq<MarketPrice>, b: seq<MarketPrice>, registry: Registry, stock: Stock, demands: Demands,
                     ids: set<string>)
    requires Rows(a, registry, stock, demands, ids) && multiset(a) == multiset(b)
    ensures Rows(b, registry, stock, demands, ids)
  {
    SameMembers(a, b);
    forall i | 0 <= i < |b| ensures IsRow(b[i], registry, stock, demands, ids) { assert b[i] in a; }
    PermutedKeysDistinct(ID, a, b);
    forall i, j | 0 <= i < j < |b| ensures b[i].resourceId != b[j].resourceId { assert ID(b[i]) != ID(b[j]); }
    forall r | r in ids && r in registry.resources
      ensures exists i :: 0 <= i < |b| && b[i].resourceId == r
    {
      var i :| 0 <= i < |a| && a[i].resourceId == r;
      assert a[i] in b;
    }
  }

  // Hash maps are visited in no particular order: any list of the keys, each once.
  method VisitOrder(keys: set<string>) returns (order: seq<string>)
    ensures Distinct(order) && Elements(order) == keys
  {
    order := [];
    var left := keys;
    while left != {}
      invariant Distinct(order) && Elements(order) == keys - left && left <= keys
      decreases |left|
    {
      var r :| r in left;
      ElementsSnoc(order, r);
      order, left := order + [r], left - {r};
    }
  }

  ghost predicate Distinct(order: seq<string>) {
    forall i, j :: 0 <= i < j < |order| ==> order[i] != order[j]
  }

  ghost function Elements(order: seq<string>): set<string> { set r | r in order }

  lemma ElementsSnoc(order: seq<string>, r: string)
    ensures Elements(order + [r]) == Elements(order) + {r}
  {
  }

  // The rows produced by a visit.
  function RowsFor(registry: Registry, stock: Stock, demands: Demands, order: seq<string>): seq<MarketPrice> {
    if order == [] then []
    else
      var r := order[|order| - 1];
      RowsFor(registry, stock, demands, order[..|order| - 1])
      + if r in registry.resources then [RowOf(registry, stock, demands, r)] else []
  }

  lemma {:induction false} RowsForAreRows(registry: Registry, stock: Stock, demands: Demands, order: seq<string>)
    requires Distinct(order)
    ensures Rows(RowsFor(registry, stock, demands, order), registry, stock, demands, Elements(order))
  {
    if order != [] {
      var n := |order| - 1;
      var r := order[n];
      RowsForAreRows(registry, stock, demands, order[..n]);
      assert order == order[..n] + [r];
      ElementsSnoc(order[..n], r);
      var rows := RowsFor(registry, stock, demands, order[..n]);
      AppendRow(rows, registry, stock, demands, Elements(order[..n]), r);
      if r !in registry.resources { assert rows + [] == rows; }
    }
  }

  lemma RowsForStep(registry: Registry, stock: Stock, demands: Demands, order: seq<string>, k: nat)
    requires k < |order|
    ensures RowsFor(registry, stock, demands, order[..k + 1]) == RowsFor(registry, stock, demands, order[..k])
            + if order[k] in registry.resources then [RowOf(registry, stock, demands, order[k])] else []
  {
    assert order[..k + 1][..k] == order[..k];
  }

  // First the stocked resources, then those only in demand.
  lemma VisitsAll(stock: Stock, demands: Demands, first: seq<string>, second: seq<string>)
    requires Distinct(first) && Elements(first) == stock.Keys
    requires Distinct(second) && Elements(second) == demands.Keys - stock.Keys
    ensures Distinct(first + second) && Elements(first + second) == stock.Keys + demands.Keys
  {
    var all := first + second;
    forall i, j | 0 <= i < j < |all| ensures all[i] != all[j] {
      if i < |first| <= j { assert first[i] in Elements(first) && second[j - |first|] in Elements(second); }
    }
    assert Elements(all) == Elements(first) + Elements(second);
  }

  method CalculateMarketPrices(registry: Registry, stock: Stock, demands: Demands) returns (prices: seq<MarketPrice>)
    ensures IsListing(prices, registry, stock, demands)
  {
    var first := VisitOrder(stock.Keys);
    var second := VisitOrder(demands.Keys - stock.Keys);
    VisitsAll(stock, demands, first, second);
    var order := first + second;
    var rows: seq<MarketPrice> := [];
    for k := 0 to |order|
      invariant rows == RowsFor(registry, stock, demands, order[..k])
    {
      var r := order[k];
      RowsForStep(registry, stock, demands, order, k);
      if r in registry.resources {
        rows := rows + [CalculatePrice(r, registry.resources[r], Amount(stock, r), Demanded(demands, r))];
      }
    }
    assert order[..|order|] == order;
    RowsForAreRows(registry, stock, demands, order);
    KeyedOrderIsTotal(ID, ById);
    prices := Sort(ById, rows);
    RowsPermuted(rows, prices, registry, stock, demands, stock.Keys + demands.Keys);
  }

  lemma SameFirst(a: seq<MarketPrice>, b: seq<MarketPrice>, registry: Registry, stock: Stock, demands: Demands,
                  ids: set<string>)
    requires Rows(a, registry, stock, demands, ids) && SortedBy(ById, a) && a != []
    requires Rows(b, registry, stock, demands, ids) && SortedBy(ById, b)
    ensures b != [] && a[0] == b[0]
  {
    assert IsRow(a[0], registry, stock, demands, ids);
    var x := a[0].resourceId;
    var k :| 0 <= k < |b| && b[k].resourceId == x;
    var y := b[0].resourceId;
    assert IsRow(b[0], registry, stock, demands, ids);
    var m :| 0 <= m < |a| && a[m].resourceId == y;
    StrLeTotal(x, x);
    StrLeTotal(y, y);
    assert m == 0 || ById(a[0], a[m]);
    assert k == 0 || ById(b[0], b[k]);
    StrLeAntisymmetric(x, y);
  }

  // The order in which the maps were visited cannot be seen in the list.
  lemma {:induction false} ListingIsUnique(a: seq<MarketPrice>, b: seq<MarketPrice>, registry: Registry, stock: Stock,
                                           demands: Demands, ids: set<string>)
    requires Rows(a, registry, stock, demands, ids) && SortedBy(ById, a)
    requires Rows(b, registry, stock, demands, ids) && SortedBy(ById, b)
    ensures a == b
    decreases |a|
  {
    hide Rows, SortedBy;
    if a == [] {
      if b != [] { SameFirst(b, a, registry, stock, demands, ids); }
    } else {
      SameFirst(a, b, registry, stock, demands, ids);
      DropFirst(a, registry, stock, demands, ids);
      DropFirst(b, registry, stock, demands, ids);
      ListingIsUnique(a[1..], b[1..], registry, stock, demands, ids - {a[0].resourceId});
      assert a == [a[0]] + a[1..] && b == [b[0]] + b[1..];
    }
  }

  lemma DropFirst(a: seq<MarketPrice>, registry: Registry, stock: Stock, demands: Demands, ids: set<string>)
    requires a != [] && Rows(a, registry, stock, demands, ids) && SortedBy(ById, a)
    ensures Rows(a[1..], registry, stock, demands, ids - {a[0].resourceId}) && SortedBy(ById, a[1..])
  {
    forall r | r in ids - {a[0].resourceId} && r in registry.resources
      ensures exists i :: 0 <= i < |a[1..]| && a[1..][i].resourceId == r
    {
      var i :| 0 <= i < |a| && a[i].resourceId == r;
      assert a[1..][i - 1] == a[i];
    }
  }

  // ---- the report ----

  function SumOf(prices: seq<MarketPrice>, f: MarketPrice -> u64): nat {
    if prices == [] then 0 else SumOf(prices[..|prices| - 1], f) + f(prices[|prices| - 1])
  }

  const SUPPLY: MarketPrice -> u64 := (p: MarketPrice) => p.supply
  const DEMAND: MarketPrice -> u64 := (p: MarketPrice) => p.demand
  const PRICE: MarketPrice -> u64 := (p: MarketPrice) => p.price

  ghost predicate Extremes(r: MarketReport) {
    && (forall i :: 0 <= i < |r.prices| ==> r.minPrice <= r.prices[i].price <= r.maxPrice)
    && (exists i :: 0 <= i < |r.prices| && r.prices[i].price == r.minPrice)
    && (exists i :: 0 <= i < |r.prices| && r.prices[i].price == r.maxPrice)
  }

  lemma {:induction false} SumBetween(prices: seq<MarketPrice>, lo: nat, hi: nat)
    requires forall i :: 0 <= i < |prices| ==> lo <= prices[i].price <= hi
    ensures lo * |prices| <= SumOf(prices, PRICE) <= hi * |prices|
  {
    if prices != [] {
      var n := |prices| - 1;
      SumBetween(prices[..n], lo, hi);
      MulSuccessor(lo, n);
      MulSuccessor(hi, n);
    }
  }

  lemma SaturatedAverage(sum: nat, n: nat, lo: u64, hi: u64)
    requires n > 0 && lo * n <= sum <= hi * n
    ensures var average := Div(Min(sum, U64_MAX), n); average <= hi && (lo <= average <==> lo * n <= U64_MAX)
  {
    var total := Min(sum, U64_MAX);
    var average := Div(total, n);
    QuotientBound(total, n, average, hi);
    QuotientBound(total, n, average, lo);
    if lo <= average { MulMonotone(n, lo, average); }
  }

  // The average never exceeds the highest price; it is at least the lowest exactly when that
  // many lowest prices still fit the counter, since the sum saturates.
  lemma AverageBounds(prices: seq<MarketPrice>, lo: u64, hi: u64)
    requires prices != []
    requires forall i :: 0 <= i < |prices| ==> lo <= prices[i].price <= hi
    ensures var average := Div(Min(SumOf(prices, PRICE), U64_MAX), |prices|);
            average <= hi && (lo <= average <==> lo * |prices| <= U64_MAX)
  {
    SumBetween(prices, lo, hi);
    SaturatedAverage(SumOf(prices, PRICE), |prices|, lo, hi);
  }

  // Two balanced resources worth 2^63 each: the saturated average is below both their prices.
  lemma AverageBelowLowest(a: string, b: string, supply: u64)
    ensures var valuable := ResourceDefinition("", 0x8000_0000_0000_0000);
      var prices := [CalculatePrice(a, valuable, supply, supply), CalculatePrice(b, valuable, supply, supply)];
      && prices[0].price == prices[1].price == 0x8000_0000_0000_0000
      && Div(Min(SumOf(prices, PRICE), U64_MAX), |prices|) < prices[0].price
  {
    var valuable := ResourceDefinition("", 0x8000_0000_0000_0000);
    var prices := [CalculatePrice(a, valuable, supply, supply), CalculatePrice(b, valuable, supply, supply)];
    AverageBounds(prices, prices[0].price, prices[0].price);
  }

  lemma SumStep(prices: seq<MarketPrice>, i: nat, f: MarketPrice -> u64)
    requires i < |prices|
    ensures SumOf(prices[..i + 1], f) == SumOf(prices[..i], f) + f(prices[i])
  {
    assert prices[..i + 1][..i] == prices[..i];
  }

  // The folding loop over a non-empty list.
  method Summarize(prices: seq<MarketPrice>) returns (supply: u64, demand: u64, total: u64, lo: u64, hi: u64)
    requires prices != []
    ensures supply == Min(SumOf(prices, SUPPLY), U64_MAX)
    ensures demand == Min(SumOf(prices, DEMAND), U64_MAX)
    ensures total == Min(SumOf(prices, PRICE), U64_MAX)
    ensures Extremes(MarketReport(prices, supply, demand, 0, lo, hi))
  {
    supply, demand, total, lo, hi := 0, 0, 0, U64_MAX, 0;
    ghost var atLo, atHi := 0, 0;
    for i := 0 to |prices|
      invariant supply == Min(SumOf(prices[..i], SUPPLY), U64_MAX)
      invariant demand == Min(SumOf(prices[..i], DEMAND), U64_MAX)
      invariant total == Min(SumOf(prices[..i], PRICE), U64_MAX)
      invariant forall k :: 0 <= k < i ==> lo <= prices[k].price <= hi
      invariant 0 <= atLo < |prices| && 0 <= atHi < |prices|
      invariant if i == 0 then lo == U64_MAX && hi == 0 else prices[atLo].price == lo && prices[atHi].price == hi
    {
      var p := prices[i];
      SumStep(prices, i, SUPPLY);
      SumStep(prices, i, DEMAND);
      SumStep(prices, i, PRICE);
      supply := SatAdd(supply, p.supply);
      demand := SatAdd(demand, p.demand);
      total := SatAdd(total, p.price);
      if p.price <= lo { lo, atLo := p.price, i; }
      if p.price >= hi { hi, atHi := p.price, i; }
    }
    assert prices[..|prices|] == prices;
  }

  // What the report must show for these resources, stocks and demands.
  ghost predicate IsMarketReport(report: MarketReport, registry: Registry, stock: Stock, demands: Demands) {
    && IsListing(report.prices, registry, stock, demands)
    && report.totalSupply == Min(SumOf(report.prices, SUPPLY), U64_MAX)
    && report.totalDemand == Min(SumOf(report.prices, DEMAND), U64_MAX)
    && if report.prices == [] then report == MarketReport([], 0, 0, 0, 0, 0)
       else Extremes(report) && report.averagePrice == Div(Min(SumOf(report.prices, PRICE), U64_MAX), |report.prices|)
  }

  method MakeMarketReport(registry: Registry, stock: Stock, demands: Demands) returns (report: MarketReport)
    ensures IsMarketReport(report, registry, stock, demands)
    ensures report.prices != [] ==>
      && report.averagePrice <= report.maxPrice
      && (report.minPrice <= report.averagePrice <==> report.minPrice * |report.prices| <= U64_MAX)
  {
    hide IsListing;
    var prices := CalculateMarketPrices(registry, stock, demands);
    if prices == [] { return MarketReport([], 0, 0, 0, 0, 0); }
    var supply, demand, total, lo, hi := Summarize(prices);
    AverageBounds(prices, lo, hi);
    report := MarketReport(prices, supply, demand, Div(total, |prices|), lo, hi);
  }

  lemma ExtremesAgree(a: MarketReport, b: MarketReport)
    requires Extremes(a) && Extremes(b) && a.prices == b.prices
    ensures a.minPrice == b.minPrice && a.maxPrice == b.maxPrice
  {
    var i :| 0 <= i < |a.prices| && a.prices[i].price == a.minPrice;
    var j :| 0 <= j < |b.prices| && b.prices[j].price == b.minPrice;
    var m :| 0 <= m < |a.prices| && a.prices[m].price == a.maxPrice;
    var n :| 0 <= n < |b.prices| && b.prices[n].price == b.maxPrice;
  }

  // There is only one such report.
  lemma MarketReportIsUnique(a: MarketReport, b: MarketReport, registry: Registry, stock: Stock, demands: Demands)
    requires IsMarketReport(a, registry, stock, demands) && IsMarketReport(b, registry, stock, demands)
    ensures a == b
  {
    SameListing(a.prices, b.prices, registry, stock, demands);
    hide IsListing, SumOf, Extremes, Div;
    if a.prices != [] { ExtremesAgree(a, b); }
  }

  lemma SameListing(a: seq<MarketPrice>, b: seq<MarketPrice>, registry: Registry, stock: Stock, demands: Demands)
    requires IsListing(a, registry, stock, demands) && IsListing(b, registry, stock, demands)
    ensures a == b
  {
    hide Rows, SortedBy;
    ListingIsUnique(a, b, registry, stock, demands, stock.Keys + demands.Keys);
  }
}
