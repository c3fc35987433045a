// Pricing by supply and demand, and the market report.
module Market {
  import opened U64
  import opened Records
  import opened DataRegistry

  // ---- the price of one resource ----

  function CalculatePrice(id: string, resource: ResourceDefinition, supply: u64, demand: u64): MarketPrice {
    var base := Max(resource.baseValue, 1);
    if demand > supply then
      var premium := Div(SatMul(base, demand - supply), Max(demand, 1));
      MarketPrice(id, base, supply, demand, SatAdd(base, Max(premium, 1)), "demand exceeds supply")
    else if supply > demand && supply > 0 then
      var discount := Div(SatMul(base, supply - demand), supply);
      var price := if discount >= base then 1 else Max(base - discount, 1);
      MarketPrice(id, base, supply, demand, price, "supply exceeds demand")
    else MarketPrice(id, base, supply, demand, base, "balanced")
  }

  function Price(base: u64, supply: u64, demand: u64): u64
    requires base >= 1
  {
    CalculatePrice([], ResourceDefinition([], base), supply, demand).price
  }

  lemma PriceDependsOnBase(id: string, resource: ResourceDefinition, supply: u64, demand: u64)
    ensures CalculatePrice(id, resource, supply, demand).price == Price(Max(resource.baseValue, 1), supply, demand)
  {
  }

  // Whatever saturates, prices stay between 1 and twice the base; a shortage shows in the price unless
  // the base is already the largest number there is, and a surplus once it takes a whole coin off.
  lemma PriceRange(base: u64, supply: u64, demand: u64)
    requires base >= 1
    ensures 1 <= Price(base, supply, demand) <= 2 * base
    ensures Price(base, supply, demand) > base <==> demand > supply && base < U64_MAX
    ensures Price(base, supply, demand) < base
            <==> supply > demand && base > 1 && base * (supply - demand) >= supply
  {
    if demand > supply {
      var gap := demand - supply;
      MulMonotone(base, gap, demand);
      QuotientBound(SatMul(base, gap), demand, Div(SatMul(base, gap), demand), base);
    } else if supply > demand {
      var product := SatMul(base, supply - demand);
      QuotientBound(product, supply, Div(product, supply), 1);
      if product < supply { QuotientBound(product, supply, Div(product, supply), 0); }
    }
  }

  // Quotients compare as their cross products do.
  lemma QuotientsCompare(a: nat, b: nat, p: nat, c: nat, d: nat, q: nat)
    requires b > 0 && d > 0 && a * d <= c * b
    requires p * b <= a < p * b + b && q * d <= c < q * d + d
    ensures p <= q
  {
    // p*b*d <= a*d <= c*b, so p*d <= c.
    MulMonotone(d, p * b, a);
    assert b * (p * d) == (p * b) * d && b * (c + 1) == c * b + b;
    if p * d > c { MulMonotone(b, c + 1, p * d); }
    QuotientBound(c, d, q, p);
  }

  lemma PremiumGrows(base: nat, s1: nat, d1: nat, s2: nat, d2: nat)
    requires s2 <= s1 < d1 <= d2
    ensures base * (d1 - s1) * d2 <= base * (d2 - s2) * d1
  {
    MulMonotone(base * s1, d1, d2);
    MulMonotone(base * d1, s2, s1);
    assert base * (d1 - s1) * d2 == base * d1 * d2 - base * s1 * d2;
    assert base * (d2 - s2) * d1 == base * d1 * d2 - base * d1 * s2;
    assert base * s1 * d1 == base * d1 * s1;
  }

  lemma DiscountGrows(base: nat, s1: nat, s2: nat, d1: nat, d2: nat)
    requires d2 <= d1 < s1 <= s2
    ensures base * (s1 - d1) * s2 <= base * (s2 - d2) * s1
  {
    MulMonotone(base * d1, s1, s2);
    MulMonotone(base * s1, d2, d1);
    assert base * (s1 - d1) * s2 == base * s1 * s2 - base * d1 * s2;
    assert base * (s2 - d2) * s1 == base * s1 * s2 - base * s1 * d2;
    assert base * d1 * s1 == base * s1 * d1;
  }

  lemma PriceFits(base: u64, s: u64, d: u64)
    requires base >= 1 && base * Max(s, d) <= U64_MAX
    ensures d >= s ==> 0 <= base * (d - s) <= U64_MAX
    ensures s >= d ==> 0 <= base * (s - d) <= U64_MAX
    ensures d > s ==> Price(base, s, d) == SatAdd(base, Max(Div(base * (d - s), d), 1))
    ensures s > d ==>
      Price(base, s, d) ==
      var discount := Div(base * (s - d), s); if discount >= base then 1 else Max(base - discount, 1)
  {
    var gap := Max(s - d, d - s);
    MulMonotone(base, gap, Max(s, d));
    MulMonotone(base, 0, gap);
    SameSatMul(base, gap);
  }

  lemma QuotientsGrow(a: u64, b: u64, c: u64, d: u64)
    requires b > 0 && d > 0 && a * d <= c * b
    ensures Div(a, b) <= Div(c, d)
  {
    QuotientsCompare(a, b, Div(a, b), c, d, Div(c, d));
  }

  lemma ShortageGrows(base: u64, s1: u64, d1: u64, s2: u64, d2: u64)
    requires base >= 1 && s2 <= s1 < d1 <= d2 && base * d2 <= U64_MAX
    ensures Price(base, s1, d1) <= Price(base, s2, d2)
  {
    hide Price, Div, SatAdd;
    MulMonotone(base, d1, d2);
    PriceFits(base, s1, d1);
    PriceFits(base, s2, d2);
    var a, b := base * (d1 - s1), base * (d2 - s2);
    assert Div(a, d1) <= Div(b, d2) by {
      PremiumGrows(base, s1, d1, s2, d2);
      QuotientsGrow(a, d1, b, d2);
    }
  }

  lemma SurplusGrows(base: u64, s1: u64, d1: u64, s2: u64, d2: u64)
    requires base >= 1 && d1 <= d2 < s2 <= s1 && base * s1 <= U64_MAX
    ensures Price(base, s1, d1) <= Price(base, s2, d2)
  {
    hide Price, Div, SatAdd;
    MulMonotone(base, s2, s1);
    PriceFits(base, s1, d1);
    PriceFits(base, s2, d2);
    var a, b := base * (s2 - d2), base * (s1 - d1);
    assert Div(a, s2) <= Div(b, s1) by {
      DiscountGrows(base, s2, s1, d2, d1);
      QuotientsGrow(a, s2, b, s1);
    }
  }

  // More demand and less supply never lower the price, in and across all regimes,
  // as long as the products do not saturate.
  lemma PriceMonotone(base: u64, s1: u64, d1: u64, s2: u64, d2: u64)
    requires base >= 1 && s2 <= s1 && d1 <= d2
    requires base * Max(s1, d2) <= U64_MAX
    ensures Price(base, s1, d1) <= Price(base, s2, d2)
  {
    MulMonotone(base, s1, Max(s1, d2));
    MulMonotone(base, d2, Max(s1, d2));
    hide Price;
    if d1 > s1 {
      ShortageGrows(base, s1, d1, s2, d2);
    } else if s2 > d2 {
      SurplusGrows(base, s1, d1, s2, d2);
    } else {
      PriceRange(base, s1, d1);
      PriceRange(base, s2, d2);
    }
  }

  lemma SameSatMul(a: u64, b: u64)
    requires a * b <= U64_MAX
    ensures SatMul(a, b) == a * b
  {
  }

  // ---- exactly when prices are monotone ----

  ghost predicate MonotoneAt(base: u64, s1: u64, d1: u64, s2: u64, d2: u64)
    requires base >= 1
  {
    s2 <= s1 && d1 <= d2 ==> Price(base, s1, d1) <= Price(base, s2, d2)
  }

  // For supplies and demands up to n.
  ghost predicate MonotoneUpTo(base: u64, n: u64)
    requires base >= 1
  {
    forall s1: u64, d1: u64, s2: u64, d2: u64 ::
      s1 <= n && d1 <= n && s2 <= n && d2 <= n ==> MonotoneAt(base, s1, d1, s2, d2)
  }

  const HALF: u64 := 0x8000_0000_0000_0000

  // With one side empty the price follows from a single division.
  lemma OneSided(base: u64, k: u64)
    requires base >= 1 && k >= 1
    ensures Price(base, 0, k) == SatAdd(base, Max(Div(SatMul(base, k), k), 1))
    ensures Price(base, k, 0)
            == (var discount := Div(SatMul(base, k), k); if discount >= base then 1 else Max(base - discount, 1))
  {
  }

  lemma OneSidedFits(base: u64, k: u64)
    requires base >= 1 && k >= 1 && base * k <= U64_MAX
    ensures Div(SatMul(base, k), k) == base
  {
    QuotientBound(base * k, k, Div(base * k, k), base);
  }

  // A saturated product no longer divides back to the base.
  lemma OneSidedSaturates(base: u64, k: u64)
    requires base >= 1 && k >= 1 && base * k > U64_MAX
    ensures SatMul(base, k) == U64_MAX && Div(U64_MAX, k) < base && Div(U64_MAX, k) * k <= U64_MAX
  {
    if Div(U64_MAX, k) >= base { MulMonotone(k, base, Div(U64_MAX, k)); }
  }

  // A base below 2^63: the price for one unit wanted doubles, that for n does not.
  lemma SmallBaseFalls(base: u64, n: u64)
    requires 1 <= base < HALF && base * n > U64_MAX
    ensures Price(base, 0, 1) > Price(base, 0, n)
  {
    OneSided(base, 1);
    OneSided(base, n);
    OneSidedFits(base, 1);
    OneSidedSaturates(base, n);
    assert base > 1;
  }

  // A base of 2^63 or more: one unit in surplus costs 1, n units cost more.
  lemma LargeBaseRises(base: u64, n: u64)
    requires base >= HALF && n >= 2 && !(base == HALF && n == 2)
    ensures Price(base, n, 0) > Price(base, 1, 0)
  {
    MulMonotone(base, 2, n);
    OneSided(base, 1);
    OneSided(base, n);
    OneSidedFits(base, 1);
    OneSidedSaturates(base, n);
    var discount := Div(U64_MAX, n);
    if n >= 3 {
      MulMonotone(discount, 3, n);
    } else {
      assert discount * 2 <= U64_MAX;
    }
    assert base - discount >= 2;
  }

  lemma HalfUpToTwo(s: u64, d: u64)
    requires s <= 2 && d <= 2
    ensures Price(HALF, s, d) ==
      if d > s then if s == 0 then U64_MAX else HALF + HALF / 2
      else if s > d then if d == 0 then 1 else HALF / 2
      else HALF
  {
    assert SatMul(HALF, 1) == HALF && SatMul(HALF, 2) == U64_MAX;
    QuotientBound(HALF, 1, Div(HALF, 1), HALF);
    QuotientBound(HALF, 2, Div(HALF, 2), HALF / 2);
    QuotientBound(U64_MAX, 2, Div(U64_MAX, 2), HALF - 1);
    assert Div(U64_MAX, 2) == HALF - 1 && Div(HALF, 2) == HALF / 2;
  }

  // Among supplies and demands up to n, prices are monotone if and only if the base times n fits
  // 64 bits, with a single exception: a base of 2^63 and two units.
  lemma PriceMonotoneExactly(base: u64, n: u64)
    requires base >= 1
    ensures MonotoneUpTo(base, n) <==> base * n <= U64_MAX || (base == HALF && n == 2)
  {
    if base * n <= U64_MAX {
      forall s1: u64, d1: u64, s2: u64, d2: u64 | s1 <= n && d1 <= n && s2 <= n && d2 <= n && s2 <= s1 && d1 <= d2
        ensures Price(base, s1, d1) <= Price(base, s2, d2)
      {
        MulMonotone(base, Max(s1, d2), n);
        PriceMonotone(base, s1, d1, s2, d2);
      }
    } else if base == HALF && n == 2 {
      forall s1: u64, d1: u64, s2: u64, d2: u64 | s1 <= n && d1 <= n && s2 <= n && d2 <= n && s2 <= s1 && d1 <= d2
        ensures Price(base, s1, d1) <= Price(base, s2, d2)
      {
        HalfUpToTwo(s1, d1);
        HalfUpToTwo(s2, d2);
      }
    } else if base < HALF {
      SmallBaseFalls(base, n);
      assert !MonotoneAt(base, 0, 1, 0, n);
    } else {
      MulMonotone(base, Min(n, 1), 1);
      LargeBaseRises(base, n);
      assert !MonotoneAt(base, n, 0, 1, 0);
    }
  }

  // The same for the resources of a registry, where a base value of zero counts as one.
  lemma CalculatedPriceMonotoneExactly(id: string, resource: ResourceDefinition, n: u64)
    ensures (forall s1: u64, d1: u64, s2: u64, d2: u64 ::
              s1 <= n && d1 <= n && s2 <= n && d2 <= n && s2 <= s1 && d1 <= d2 ==>
                CalculatePrice(id, resource, s1, d1).price <= CalculatePrice(id, resource, s2, d2).price)
            <==> Max(resource.baseValue, 1) * n <= U64_MAX || (resource.baseValue == HALF && n == 2)
  {
    var base := Max(resource.baseValue, 1);
    PriceMonotoneExactly(base, n);
    forall s: u64, d: u64 ensures CalculatePrice(id, resource, s, d).price == Price(base, s, d) {
      PriceDependsOnBase(id, resource, s, d);
    }
    hide CalculatePrice;
    if !MonotoneUpTo(base, n) {
      var s1: u64, d1: u64, s2: u64, d2: u64 :|
        s1 <= n && d1 <= n && s2 <= n && d2 <= n && !MonotoneAt(base, s1, d1, s2, d2);
      assert CalculatePrice(id, resource, s1, d1).price > CalculatePrice(id, resource, s2, d2).price;
    } else {
      forall s1: u64, d1: u64, s2: u64, d2: u64 | s1 <= n && d1 <= n && s2 <= n && d2 <= n && s2 <= s1 && d1 <= d2
        ensures CalculatePrice(id, resource, s1, d1).price <= CalculatePrice(id, resource, s2, d2).price
      {
        assert MonotoneAt(base, s1, d1, s2, d2);
      }
    }
  }

  lemma CalculatedPriceRange(id: string, resource: ResourceDefinition, supply: u64, demand: u64)
    ensures var base, price := Max(resource.baseValue, 1), CalculatePrice(id, resource, supply, demand).price;
      && 1 <= price <= 2 * base
      && (price > base <==> demand > supply && base < U64_MAX)
      && (price < base <==> supply > demand && base > 1 && base * (supply - demand) >= supply)
  {
    PriceDependsOnBase(id, resource, supply, demand);
    PriceRange(Max(resource.baseValue, 1), supply, demand);
  }

  // Saturation breaks monotonicity: a base of 2^63 with supply 1 costs less at demand 5 than at 3.
  lemma SaturationBreaksMonotonicity()
    ensures Price(0x8000_0000_0000_0000, 1, 5) < Price(0x8000_0000_0000_0000, 1, 3)
  {
    var base: u64 := 0x8000_0000_0000_0000;
    QuotientBound(U64_MAX, 3, Div(U64_MAX, 3), 0x5555_5555_5555_5555);
    QuotientBound(U64_MAX, 5, Div(U64_MAX, 5), 0x3333_3333_3333_3333);
    assert SatMul(base, 2) == U64_MAX && SatMul(base, 4) == U64_MAX;
  }
}
