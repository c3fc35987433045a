// The price list and the report's totals, told from stocks, demands and base values.
module MarketTerms {
  import opened U64
  import opened Records
  import opened Storage
  import opened DataRegistry
  import opened Market
  import opened MarketListing

  // ---- one row ----

  // The premium is at least one coin, and otherwise how often the demand goes into the gain.
  predicate IsPremium(p: nat, gain: nat, demand: u64) {
    p >= 1 && gain < p * demand + demand && (p == 1 || p * demand <= gain)
  }

  // How often the supply goes into the loss.
  predicate IsDiscount(d: nat, loss: nat, supply: u64) { d * supply <= loss < d * supply + supply }

  predicate WithPremium(p: MarketPrice, n: nat) {
    && IsPremium(n, Min(p.baseValue * Max(p.demand - p.supply, 0), U64_MAX), p.demand)
    && p.price == Min(p.baseValue + n, U64_MAX)
  }

  predicate WithDiscount(p: MarketPrice, n: nat) {
    && IsDiscount(n, Min(p.baseValue * Max(p.supply - p.demand, 0), U64_MAX), p.supply)
    && p.price == Max(p.baseValue - n, 1)
  }

  ghost predicate Priced(p: MarketPrice) {
    if p.demand > p.supply then p.reason == "demand exceeds supply" && exists n :: WithPremium(p, n)
    else if p.supply > p.demand then p.reason == "supply exceeds demand" && exists n :: WithDiscount(p, n)
    else p.reason == "balanced" && p.price == p.baseValue
  }

  lemma PremiumIsUnique(p: nat, q: nat, gain: nat, demand: u64)
    requires demand > 0 && IsPremium(p, gain, demand) && IsPremium(q, gain, demand)
    ensures p == q
  {
    if p < q { MulMonotone(demand, p + 1, q); } else if q < p { MulMonotone(demand, q + 1, p); }
  }

  lemma RowTells(id: string, resource: ResourceDefinition, supply: u64, demand: u64)
    ensures var p := CalculatePrice(id, resource, supply, demand);
      && p.resourceId == id && p.supply == supply && p.demand == demand
      && p.baseValue == (if resource.baseValue == 0 then 1 else resource.baseValue)
      && Priced(p)
  {
    var base, p := Max(resource.baseValue, 1), CalculatePrice(id, resource, supply, demand);
    if demand > supply {
      var gain := SatMul(base, demand - supply);
      MulMonotone(base, 0, demand - supply);
      assert WithPremium(p, Max(Div(gain, demand), 1));
    } else if supply > demand {
      var loss := SatMul(base, supply - demand);
      MulMonotone(base, 0, supply - demand);
      assert WithDiscount(p, Div(loss, supply));
    }
  }

  // When nothing saturates: the price is the base and the one premium, or the base less the one discount.
  lemma PriceIsFixed(p: MarketPrice, n: nat)
    requires Priced(p) && p.demand > p.supply && p.baseValue * (p.demand - p.supply) <= U64_MAX
    requires n >= 1 && n * p.demand <= p.baseValue * (p.demand - p.supply) < n * p.demand + p.demand
    requires p.baseValue + n <= U64_MAX
    ensures p.price == p.baseValue + n
  {
    var m :| WithPremium(p, m);
    PremiumIsUnique(m, n, p.baseValue * (p.demand - p.supply), p.demand);
  }

  lemma DiscountIsFixed(p: MarketPrice, n: nat)
    requires Priced(p) && p.supply > p.demand && p.baseValue * (p.supply - p.demand) <= U64_MAX
    requires n * p.supply <= p.baseValue * (p.supply - p.demand) < n * p.supply + p.supply
    ensures p.price == if p.baseValue > n then p.baseValue - n else 1
  {
    var m :| WithDiscount(p, m);
    QuotientIsUnique(p.baseValue * (p.supply - p.demand), p.supply, m, n);
  }

  // Every row of a listing shows the stock and the demand of its resource, and what they make it cost.
  lemma ListingTells(prices: seq<MarketPrice>, registry: Registry, stock: Stock, demands: Demands, i: nat)
    requires IsListing(prices, registry, stock, demands) && i < |prices|
    ensures var p := prices[i];
      && p.resourceId in registry.resources && (p.resourceId in stock || p.resourceId in demands)
      && p.supply == Amount(stock, p.resourceId)
      && p.demand == (if p.resourceId in demands then demands[p.resourceId] else 0)
      && p.baseValue == Max(registry.resources[p.resourceId].baseValue, 1)
      && Priced(p)
  {
    assert IsRow(prices[i], registry, stock, demands, stock.Keys + demands.Keys);
    var r := prices[i].resourceId;
    RowTells(r, registry.resources[r], Amount(stock, r), Demanded(demands, r));
    hide CalculatePrice, Priced;
  }

  // ---- the totals ----

  function Ids(prices: seq<MarketPrice>): set<string> { set p <- prices :: p.resourceId }

  function Only(m: map<string, u64>, ids: set<string>): map<string, u64> {
    map r | r in m && r in ids :: m[r]
  }

  lemma OneMore(m: map<string, u64>, ids: set<string>, r: string)
    requires r !in ids
    ensures Total(Only(m, ids + {r})) == Total(Only(m, ids)) + if r in m then m[r] else 0
  {
    if r in m {
      assert Only(m, ids + {r}) == Only(m, ids)[r := m[r]];
      TotalUpdated(Only(m, ids), r, m[r]);
    } else {
      assert Only(m, ids + {r}) == Only(m, ids);
    }
  }

  // Rows of different resources that each show what a table holds for theirs add up to its part.
  lemma {:induction false} RowsAddUp(prices: seq<MarketPrice>, f: MarketPrice -> u64, m: map<string, u64>)
    requires forall i, j :: 0 <= i < j < |prices| ==> prices[i].resourceId != prices[j].resourceId
    requires forall i :: 0 <= i < |prices| ==>
      f(prices[i]) == if prices[i].resourceId in m then m[prices[i].resourceId] else 0
    ensures SumOf(prices, f) == Total(Only(m, Ids(prices)))
  {
    if prices == [] {
      assert Only(m, Ids(prices)) == map[];
    } else {
      var n := |prices| - 1;
      var before, r := prices[..n], prices[n].resourceId;
      RowsAddUp(before, f, m);
      assert prices == before + [prices[n]];
      assert Ids(prices) == Ids(before) + {r};
      OneMore(m, Ids(before), r);
    }
  }

  lemma ListedIds(prices: seq<MarketPrice>, registry: Registry, stock: Stock, demands: Demands)
    requires IsListing(prices, registry, stock, demands)
    ensures Ids(prices) == set r | r in stock.Keys + demands.Keys && r in registry.resources
  {
    hide RowOf;
    var ids := stock.Keys + demands.Keys;
    forall r | r in Ids(prices) ensures r in ids && r in registry.resources {
      var p :| p in prices && p.resourceId == r;
      assert IsRow(p, registry, stock, demands, ids);
    }
    forall r | r in ids && r in registry.resources ensures r in Ids(prices) {
      var i :| 0 <= i < |prices| && prices[i].resourceId == r;
      assert prices[i] in prices;
    }
  }

  function Known(m: map<string, u64>, registry: Registry): map<string, u64> {
    map r | r in m && r in registry.resources :: m[r]
  }

  lemma ShownIsKnown(prices: seq<MarketPrice>, registry: Registry, stock: Stock, demands: Demands)
    requires IsListing(prices, registry, stock, demands)
    ensures Only(stock, Ids(prices)) == Known(stock, registry)
    ensures Only(demands, Ids(prices)) == Known(demands, registry)
  {
    ListedIds(prices, registry, stock, demands);
    hide IsListing, Ids;
  }

  lemma ListingAddsUp(prices: seq<MarketPrice>, registry: Registry, stock: Stock, demands: Demands)
    requires IsListing(prices, registry, stock, demands)
    ensures SumOf(prices, SUPPLY) == Total(Known(stock, registry))
    ensures SumOf(prices, DEMAND) == Total(Known(demands, registry))
  {
    ShownIsKnown(prices, registry, stock, demands);
    hide RowOf, IsRow, Total, SumOf, Only, Ids, Known;
    forall i | 0 <= i < |prices|
      ensures prices[i].supply == Amount(stock, prices[i].resourceId)
      ensures prices[i].demand == Amount(demands, prices[i].resourceId)
    {
      ListingTells(prices, registry, stock, demands, i);
    }
    assert forall i, j :: 0 <= i < j < |prices| ==> prices[i].resourceId != prices[j].resourceId;
    hide IsListing, Rows;
    RowsAddUp(prices, SUPPLY, stock);
    RowsAddUp(prices, DEMAND, demands);
  }

  // A report's totals are what is in stock and in demand of the known resources, as far as 64 bits go.
  lemma TotalsTell(report: MarketReport, registry: Registry, stock: Stock, demands: Demands)
    requires IsMarketReport(report, registry, stock, demands)
    ensures report.totalSupply == Min(Total(Known(stock, registry)), U64_MAX)
    ensures report.totalDemand == Min(Total(Known(demands, registry)), U64_MAX)
  {
    hide IsListing, Extremes, SumOf, Known, Total;
    ListingAddsUp(report.prices, registry, stock, demands);
  }

  // ---- the demand table ----

  // After setting a demand that is what is wanted of the resource, and of the others what was wanted before.
  lemma DemandTells(m: Demands, r: string, demand: u64, q: string)
    ensures var after := WithDemand(m, r, demand);
      && (if q in after then after[q] else 0) ==
         (if q == r && r != "" then demand else if q in m then m[q] else 0)
      && (ProperDemands(m) ==> ProperDemands(after))
  {
  }
}
