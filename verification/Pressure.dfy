// Market pressure: how far demand and supply lie apart, resource by resource and overall.
module Pressure {
  import opened U64
  import opened Lookup
  import opened Records

  datatype Level = Balanced | Shortage | Surplus | Depleted

  function Classify(supply: u64, demand: u64): Level {
    if demand > 0 && supply == 0 then Depleted
    else if demand > supply then Shortage
    else if supply > demand then Surplus
    else Balanced
  }

  function Gap(a: u64, b: u64): u64 { if a > b then a - b else b - a }

  const FULL: u64 := 10000

  // A gap too wide to scale counts as full pressure.
  function BasisPoints(supply: u64, demand: u64): u64 {
    var gap := Gap(supply, demand);
    if gap > U64_MAX / FULL then FULL
    else Min(Div(gap * FULL, Max(Max(supply, demand), 1)), FULL)
  }

  // The figure is the share of the gap in the larger side, in basis points rounded down, exactly
  // when the gap can be scaled without overflow or one of the sides is empty; otherwise it is overstated.
  lemma BasisPointsExactly(supply: u64, demand: u64)
    ensures var gap, larger := Gap(supply, demand), Max(Max(supply, demand), 1);
      && (BasisPoints(supply, demand) == gap * FULL / larger <==>
          gap <= U64_MAX / FULL || supply == 0 || demand == 0)
      && BasisPoints(supply, demand) >= gap * FULL / larger
  {
    var gap, larger := Gap(supply, demand), Max(Max(supply, demand), 1);
    var share := gap * FULL / larger;
    DivisionBounds(gap * FULL, larger);
    MulMonotone(FULL, gap, larger);
    QuotientBound(gap * FULL, larger, share, FULL);
    if gap > U64_MAX / FULL && (supply == 0 || demand == 0) {
      assert gap == larger;
    }
  }

  // Both sides far from empty, under three basis points apart, and shown as full pressure.
  lemma WideGapIsOverstated()
    ensures var supply, demand := 0x8000_0000_0000_0000, 0x8008_0000_0000_0000;
      BasisPoints(supply, demand) == FULL && Gap(supply, demand) * FULL / demand < 3
  {
    var supply, demand := 0x8000_0000_0000_0000, 0x8008_0000_0000_0000;
    DivisionBounds(Gap(supply, demand) * FULL, demand);
  }

  // No pressure shows when the sides are equal, and full pressure when one is empty.
  lemma PressureExtremes(supply: u64, demand: u64)
    ensures BasisPoints(supply, demand) <= FULL
    ensures supply == demand ==> BasisPoints(supply, demand) == 0
    ensures supply != demand && (supply == 0 || demand == 0) ==> BasisPoints(supply, demand) == FULL
  {
    BasisPointsExactly(supply, demand);
    var gap, larger := Gap(supply, demand), Max(Max(supply, demand), 1);
    DivisionBounds(gap * FULL, larger);
    QuotientBound(gap * FULL, larger, gap * FULL / larger, if gap == 0 then 0 else FULL);
  }

  // ---- the snapshot ----

  datatype Signal = Signal(
    resourceId: string, supply: u64, demand: u64, unitPrice: u64, baseValue: u64, gap: u64,
    basisPoints: u64, level: Level, canFulfill: bool, reason: string)

  const DEPLETED_REASON := "demand exists with no supply"

  function SignalOf(p: MarketPrice): Signal {
    var level := Classify(p.supply, p.demand);
    Signal(p.resourceId, p.supply, p.demand, p.price, p.baseValue, Gap(p.supply, p.demand),
           BasisPoints(p.supply, p.demand), level, p.demand == 0 || p.supply >= p.demand,
           if level == Depleted then DEPLETED_REASON else p.reason)
  }

  lemma FulfillableExactly(p: MarketPrice)
    ensures SignalOf(p).canFulfill <==> SignalOf(p).level in {Balanced, Surplus}
  {
  }

  function Count(prices: seq<MarketPrice>, level: Level): nat {
    if prices == [] then 0
    else Count(prices[..|prices| - 1], level) + if SignalOf(prices[|prices| - 1]).level == level then 1 else 0
  }

  function Unfulfilled(prices: seq<MarketPrice>): nat {
    if prices == [] then 0
    else Unfulfilled(prices[..|prices| - 1]) + if SignalOf(prices[|prices| - 1]).canFulfill then 0 else 1
  }

  function Pressures(prices: seq<MarketPrice>): nat {
    if prices == [] then 0 else Pressures(prices[..|prices| - 1]) + SignalOf(prices[|prices| - 1]).basisPoints
  }

  // The named resource is the first of those under the highest pressure; none if nothing is under any.
  predicate IsHighest(prices: seq<MarketPrice>, top: u64, id: string) {
    && (forall i :: 0 <= i < |prices| ==> SignalOf(prices[i]).basisPoints <= top)
    && if top == 0 then id == [] else FirstAt(prices, top) < |prices| && id == prices[FirstAt(prices, top)].resourceId
  }

  function FirstAt(prices: seq<MarketPrice>, top: u64): (i: nat)
    ensures i <= |prices|
    ensures i < |prices| ==> SignalOf(prices[i]).basisPoints == top
    ensures forall k :: 0 <= k < i ==> SignalOf(prices[k]).basisPoints != top
  {
    First(prices, (p: MarketPrice) => SignalOf(p).basisPoints == top)
  }

  datatype Snapshot = Snapshot(
    signals: seq<Signal>, totalSupply: u64, totalDemand: u64, shortage: nat, surplus: nat, depleted: nat, balanced: nat,
    totalBasisPoints: u64, highest: string)

  lemma OneMorePrice(prices: seq<MarketPrice>, i: nat, level: Level)
    requires i < |prices|
    ensures Count(prices[..i + 1], level)
            == Count(prices[..i], level) + if SignalOf(prices[i]).level == level then 1 else 0
    ensures Pressures(prices[..i + 1]) == Pressures(prices[..i]) + SignalOf(prices[i]).basisPoints
  {
    assert prices[..i + 1][..i] == prices[..i];
  }

  lemma HighestStep(prices: seq<MarketPrice>, i: nat, top: u64, id: string)
    requires i < |prices| && IsHighest(prices[..i], top, id)
    ensures var s := SignalOf(prices[i]);
      if s.basisPoints > top then IsHighest(prices[..i + 1], s.basisPoints, prices[i].resourceId)
      else IsHighest(prices[..i + 1], top, id)
  {
    hide SignalOf;
    var s, before, after := SignalOf(prices[i]), prices[..i], prices[..i + 1];
    assert after == before + [prices[i]];
    if s.basisPoints > top {
      FirstIs(after, s.basisPoints, i);
    } else if top > 0 {
      FirstIs(after, top, FirstAt(before, top));
    }
  }

  lemma FirstIs(prices: seq<MarketPrice>, top: u64, i: nat)
    requires i < |prices| && SignalOf(prices[i]).basisPoints == top
    requires forall k :: 0 <= k < i ==> SignalOf(prices[k]).basisPoints != top
    ensures FirstAt(prices, top) == i
  {
  }

  lemma {:induction false} LevelsPartition(prices: seq<MarketPrice>)
    ensures Count(prices, Shortage) + Count(prices, Surplus) + Count(prices, Depleted) + Count(prices, Balanced)
            == |prices|
  {
    if prices != [] { LevelsPartition(prices[..|prices| - 1]); }
  }

  // The demand that cannot be met is that of the short and the depleted resources.
  lemma {:induction false} UnfulfilledExactly(prices: seq<MarketPrice>)
    ensures Unfulfilled(prices) == Count(prices, Shortage) + Count(prices, Depleted)
  {
    hide SignalOf;
    if prices != [] {
      UnfulfilledExactly(prices[..|prices| - 1]);
      FulfillableExactly(prices[|prices| - 1]);
    }
  }

  // The loop over the price list.
  method Survey(prices: seq<MarketPrice>) returns (s: Snapshot)
    ensures |s.signals| == |prices| && forall i :: 0 <= i < |prices| ==> s.signals[i] == SignalOf(prices[i])
    ensures s.shortage == Count(prices, Shortage) && s.surplus == Count(prices, Surplus)
    ensures s.depleted == Count(prices, Depleted) && s.balanced == Count(prices, Balanced)
    ensures s.shortage + s.surplus + s.depleted + s.balanced == |prices|
    ensures s.totalBasisPoints == Min(Pressures(prices), U64_MAX)
    ensures exists top: u64 :: IsHighest(prices, top, s.highest)
    ensures s.totalSupply == 0 && s.totalDemand == 0
  {
    hide SignalOf, IsHighest, Count, Pressures;
    NothingYet();
    var signals: seq<Signal> := [];
    var shortage, surplus, depleted, balanced, total := 0, 0, 0, 0, 0;
    var top, highest := 0, "";
    for i := 0 to |prices|
      invariant |signals| == i && forall k :: 0 <= k < i ==> signals[k] == SignalOf(prices[k])
      invariant shortage == Count(prices[..i], Shortage) && surplus == Count(prices[..i], Surplus)
      invariant depleted == Count(prices[..i], Depleted) && balanced == Count(prices[..i], Balanced)
      invariant 0 <= total <= U64_MAX && total == Min(Pressures(prices[..i]), U64_MAX)
      invariant 0 <= top <= U64_MAX && IsHighest(prices[..i], top, highest)
    {
      var signal := SignalOf(prices[i]);
      forall level { OneMorePrice(prices, i, level); }
      HighestStep(prices, i, top, highest);
      PriceId(prices[i]);
      total := SatAdd(total, signal.basisPoints);
      match signal.level {
        case Balanced => balanced := balanced + 1;
        case Shortage => shortage := shortage + 1;
        case Surplus => surplus := surplus + 1;
        case Depleted => depleted := depleted + 1;
      }
      if signal.basisPoints > top { top, highest := signal.basisPoints, signal.resourceId; }
      signals := signals + [signal];
    }
    assert prices[..|prices|] == prices;
    LevelsPartition(prices);
    s := Snapshot(signals, 0, 0, shortage, surplus, depleted, balanced, total, highest);
  }

  method MakeSnapshot(report: MarketReport) returns (s: Snapshot)
    ensures s.totalSupply == report.totalSupply && s.totalDemand == report.totalDemand
    ensures |s.signals| == |report.prices|
      && forall i :: 0 <= i < |s.signals| ==> s.signals[i] == SignalOf(report.prices[i])
    ensures s.shortage == Count(report.prices, Shortage) && s.surplus == Count(report.prices, Surplus)
    ensures s.depleted == Count(report.prices, Depleted) && s.balanced == Count(report.prices, Balanced)
    ensures s.shortage + s.surplus + s.depleted + s.balanced == |report.prices|
    ensures s.shortage + s.depleted == Unfulfilled(report.prices)
    ensures s.totalBasisPoints == Min(Pressures(report.prices), U64_MAX)
    ensures exists top: u64 :: IsHighest(report.prices, top, s.highest)
  {
    hide SignalOf, IsHighest, Count, Pressures, Unfulfilled;
    UnfulfilledExactly(report.prices);
    s := Survey(report.prices);
    s := s.(totalSupply := report.totalSupply, totalDemand := report.totalDemand);
  }

  lemma PriceId(p: MarketPrice)
    ensures SignalOf(p).resourceId == p.resourceId
  {
  }

  lemma NothingYet()
    ensures forall level :: Count([], level) == 0
    ensures Pressures([]) == 0 && IsHighest([], 0, "")
  {
  }
}
