// What reading a printed snapshot gives, and exactly when it gives the snapshot back.
module SnapshotRoundTrip {
  import opened U64
  import opened Text
  import opened Escaping
  import opened Records
  import opened SnapshotCodec

  function ReadRows(l: Load, rows: seq<Row>): Load
    decreases |rows|
  {
    if rows == [] then l else ReadRows(ReadRow(l, rows[0]), rows[1..])
  }

  lemma {:induction false} ReadRowsConcat(l: Load, a: seq<Row>, b: seq<Row>)
    ensures ReadRows(l, a + b) == ReadRows(ReadRows(l, a), b)
    decreases |a|
  {
    if a == [] {
      assert a + b == b;
    } else {
      assert (a + b)[1..] == a[1..] + b;
      ReadRowsConcat(ReadRow(l, a[0]), a[1..], b);
    }
  }

  lemma ReadStep(l: Load, rows: seq<Row>, row: Row, rest: seq<Row>)
    requires rows == [row] + rest
    ensures ReadRows(l, rows) == ReadRows(ReadRow(l, row), rest)
  {
    assert rows[1..] == rest;
  }

  lemma CleanLineReads(l: Load, row: Row)
    requires Clean(row)
    ensures ReadLine(l, Join(row, TAB)) == ReadRow(l, row)
  {
    CleanRowScans(row);
  }

  lemma {:induction false} CleanLinesRead(l: Load, rows: seq<Row>)
    requires AllClean(rows)
    ensures AllFree(Lines(rows), LF)
    ensures ReadLines(l, Lines(rows) + [[]]) == ReadRows(l, rows)
    decreases |rows|
  {
    if rows == [] {
      var blank: seq<string> := [[]];
      assert Lines(rows) + [[]] == blank && blank[1..] == [];
    } else {
      var next := ReadRow(l, rows[0]);
      CleanLineReads(l, rows[0]);
      CleanRowScans(rows[0]);
      hide ReadRow, ReadLine, Clean, Join, Split;
      CleanLinesRead(next, rows[1..]);
      var lines := Lines(rows) + [[]];
      assert lines[0] == Join(rows[0], TAB) && lines[1..] == Lines(rows[1..]) + [[]];
    }
  }

  // ---- numbers and text come back ----

  lemma Num64Dec(n: u64)
    ensures Num64(Dec(n)) == Number(n, 0)
  {
    ParseDec(n);
  }

  lemma Num32Dec(n: u32)
    ensures Num32(Dec(n)) == Number(n, 0)
  {
    Num64Dec(n);
  }

  // ---- what each printed row adds ----

  function WithSettlements(l: Load, ss: seq<SettlementReport>): Load {
    l.(snapshot := l.snapshot.(settlements := ss))
  }

  function Bare(x: SettlementReport): SettlementReport {
    x.(storage := [], buildings := [])
  }

  // Stock and building rows join the first settlement that has their id.
  function Absorb(ss: seq<SettlementReport>, id: string, storage: seq<ResourceAmount>, buildings: seq<BuildingReport>)
    : seq<SettlementReport>
    requires FirstIndex(ss, id) < |ss|
  {
    var i := FirstIndex(ss, id);
    ss[i := ss[i].(storage := ss[i].storage + storage, buildings := ss[i].buildings + buildings)]
  }

  lemma {:induction false} FirstIndexUnchanged(ss: seq<SettlementReport>, tt: seq<SettlementReport>, id: string)
    requires |ss| == |tt|
    requires forall k :: 0 <= k < |ss| ==> ss[k].id == tt[k].id
    ensures FirstIndex(ss, id) == FirstIndex(tt, id)
  {
    var i, j := FirstIndex(ss, id), FirstIndex(tt, id);
  }

  lemma AbsorbTwice(ss: seq<SettlementReport>, id: string,
    r1: seq<ResourceAmount>, b1: seq<BuildingReport>, r2: seq<ResourceAmount>, b2: seq<BuildingReport>)
    requires FirstIndex(ss, id) < |ss|
    ensures FirstIndex(Absorb(ss, id, r1, b1), id) < |ss|
    ensures Absorb(Absorb(ss, id, r1, b1), id, r2, b2) == Absorb(ss, id, r1 + r2, b1 + b2)
    ensures Absorb(ss, id, [], []) == ss
  {
    var i := FirstIndex(ss, id);
    FirstIndexUnchanged(ss, Absorb(ss, id, r1, b1), id);
    assert ss[i].storage + r1 + r2 == ss[i].storage + (r1 + r2);
    assert ss[i].buildings + b1 + b2 == ss[i].buildings + (b1 + b2);
    assert ss[i].storage + [] == ss[i].storage && ss[i].buildings + [] == ss[i].buildings;
  }

  lemma StorageRowReads(l: Load, id: string, x: ResourceAmount)
    requires l.headerSeen && FirstIndex(l.snapshot.settlements, id) < |l.snapshot.settlements|
    ensures ReadRow(l, StorageRow(id, x)) == WithSettlements(l, Absorb(l.snapshot.settlements, id, [x], []))
  {
    var f := StorageRow(id, x);
    UnescapeEscape(id);
    UnescapeEscape(x.resourceId);
    Num64Dec(x.amount);
    var ss := l.snapshot.settlements;
    var i := FirstIndex(ss, id);
    assert ss[i].buildings + [] == ss[i].buildings;
    assert ReadRow(l, f) == ReadStorage(l, f);
  }

  lemma BuildingRowReads(l: Load, id: string, x: BuildingReport)
    requires l.headerSeen && FirstIndex(l.snapshot.settlements, id) < |l.snapshot.settlements|
    ensures ReadRow(l, BuildingRow(id, x)) == WithSettlements(l, Absorb(l.snapshot.settlements, id, [], [x]))
  {
    var f := BuildingRow(id, x);
    UnescapeEscape(id);
    UnescapeEscape(x.definitionId);
    UnescapeEscape(x.displayName);
    Num32Dec(x.assignedWorkers);
    Num32Dec(x.workerSlots);
    var ss := l.snapshot.settlements;
    var i := FirstIndex(ss, id);
    assert ss[i].storage + [] == ss[i].storage;
    assert ReadRow(l, f) == ReadBuilding(l, f);
  }

  lemma HeadRowReads(l: Load, x: SettlementReport)
    requires l.headerSeen
    ensures ReadRow(l, HeadRow(x)) == WithSettlements(l, l.snapshot.settlements + [Bare(x)])
  {
    var f := HeadRow(x);
    UnescapeEscape(x.id);
    UnescapeEscape(x.displayName);
    Num64Dec(x.population);
    Num64Dec(x.totalStoredResources);
    assert ReadRow(l, f) == ReadSettlement(l, f);
  }

  function AddPrices(l: Load, xs: seq<MarketPrice>): Load {
    l.(snapshot := l.snapshot.(market := l.snapshot.market.(prices := l.snapshot.market.prices + xs)))
  }

  function AddEvents(l: Load, xs: seq<SimulationEvent>): Load {
    l.(snapshot := l.snapshot.(events := l.snapshot.events + xs))
  }

  lemma AddOneByOne(l: Load, ps: seq<MarketPrice>, es: seq<SimulationEvent>)
    ensures ps != [] ==> AddPrices(AddPrices(l, [ps[0]]), ps[1..]) == AddPrices(l, ps)
    ensures es != [] ==> AddEvents(AddEvents(l, [es[0]]), es[1..]) == AddEvents(l, es)
    ensures AddPrices(l, []) == l == AddEvents(l, [])
  {
    var p, e := l.snapshot.market.prices, l.snapshot.events;
    assert p + [] == p && e + [] == e;
    if ps != [] { assert p + [ps[0]] + ps[1..] == p + ps; }
    if es != [] { assert e + [es[0]] + es[1..] == e + es; }
  }

  lemma PriceRowReads(l: Load, x: MarketPrice)
    requires l.headerSeen
    ensures ReadRow(l, PriceRow(x)) == AddPrices(l, [x])
  {
    var f := PriceRow(x);
    UnescapeEscape(x.resourceId);
    UnescapeEscape(x.reason);
    Num64Dec(x.baseValue);
    Num64Dec(x.supply);
    Num64Dec(x.demand);
    Num64Dec(x.price);
    assert ReadRow(l, f) == ReadPrice(l, f);
  }

  lemma EventRowReads(l: Load, x: SimulationEvent)
    requires l.headerSeen
    ensures ReadRow(l, EventRow(x)) == AddEvents(l, [x])
  {
    var f := EventRow(x);
    UnescapeEscape(x.kind);
    UnescapeEscape(x.message);
    Num64Dec(x.day);
    assert ReadRow(l, f) == ReadEvent(l, f);
  }

  lemma MarketRowReads(l: Load, m: MarketReport)
    requires l.headerSeen
    ensures ReadRow(l, MarketRow(m)) ==
            l.(snapshot := l.snapshot.(market := m.(prices := l.snapshot.market.prices)), marketSeen := true)
  {
    var f := MarketRow(m);
    Num64Dec(m.totalSupply);
    Num64Dec(m.totalDemand);
    Num64Dec(m.averagePrice);
    Num64Dec(m.minPrice);
    Num64Dec(m.maxPrice);
    assert ReadRow(l, f) == ReadMarket(l, f);
  }

  // ---- runs of rows ----

  lemma {:induction false} StorageRowsRead(l: Load, id: string, xs: seq<ResourceAmount>)
    requires l.headerSeen && FirstIndex(l.snapshot.settlements, id) < |l.snapshot.settlements|
    ensures ReadRows(l, StorageRows(id, xs)) == WithSettlements(l, Absorb(l.snapshot.settlements, id, xs, []))
    decreases |xs|
  {
    hide ReadRow, StorageRow, FirstIndex;
    var ss := l.snapshot.settlements;
    if xs == [] {
      AbsorbTwice(ss, id, [], [], [], []);
    } else {
      StorageRowReads(l, id, xs[0]);
      AbsorbTwice(ss, id, [xs[0]], [], xs[1..], []);
      assert [xs[0]] + xs[1..] == xs;
      ReadStep(l, StorageRows(id, xs), StorageRow(id, xs[0]), StorageRows(id, xs[1..]));
      StorageRowsRead(WithSettlements(l, Absorb(ss, id, [xs[0]], [])), id, xs[1..]);
    }
  }

  lemma {:induction false} BuildingRowsRead(l: Load, id: string, xs: seq<BuildingReport>)
    requires l.headerSeen && FirstIndex(l.snapshot.settlements, id) < |l.snapshot.settlements|
    ensures ReadRows(l, BuildingRows(id, xs)) == WithSettlements(l, Absorb(l.snapshot.settlements, id, [], xs))
    decreases |xs|
  {
    hide ReadRow, BuildingRow, FirstIndex;
    var ss := l.snapshot.settlements;
    if xs == [] {
      AbsorbTwice(ss, id, [], [], [], []);
    } else {
      BuildingRowReads(l, id, xs[0]);
      AbsorbTwice(ss, id, [], [xs[0]], [], xs[1..]);
      assert [xs[0]] + xs[1..] == xs;
      ReadStep(l, BuildingRows(id, xs), BuildingRow(id, xs[0]), BuildingRows(id, xs[1..]));
      BuildingRowsRead(WithSettlements(l, Absorb(ss, id, [], [xs[0]])), id, xs[1..]);
    }
  }

  // A printed settlement is appended without its rows, which then go to the first bearer of the id.
  function Rejoin(ss: seq<SettlementReport>, x: SettlementReport): seq<SettlementReport> {
    var tt := ss + [Bare(x)];
    assert tt[|ss|].id == x.id;
    Absorb(tt, x.id, x.storage, x.buildings)
  }

  function RejoinAll(ss: seq<SettlementReport>, xs: seq<SettlementReport>): seq<SettlementReport>
    decreases |xs|
  {
    if xs == [] then ss else RejoinAll(Rejoin(ss, xs[0]), xs[1..])
  }

  lemma SettlementBlockReads(l: Load, x: SettlementReport)
    requires l.headerSeen
    ensures ReadRows(l, SettlementBlock(x)) == WithSettlements(l, Rejoin(l.snapshot.settlements, x))
  {
    var id := x.id;
    var tt := l.snapshot.settlements + [Bare(x)];
    assert tt[|l.snapshot.settlements|].id == id;
    var l1 := WithSettlements(l, tt);
    HeadRowReads(l, x);
    assert [HeadRow(x)][1..] == [];
    assert ReadRows(l, [HeadRow(x)]) == l1;
    StorageRowsRead(l1, id, x.storage);
    AbsorbTwice(tt, id, x.storage, [], [], x.buildings);
    BuildingRowsRead(WithSettlements(l, Absorb(tt, id, x.storage, [])), id, x.buildings);
    ReadRowsConcat(l, [HeadRow(x)], StorageRows(id, x.storage));
    ReadRowsConcat(l, [HeadRow(x)] + StorageRows(id, x.storage), BuildingRows(id, x.buildings));
    assert x.storage + [] == x.storage && [] + x.buildings == x.buildings;
  }

  lemma {:induction false} SettlementRowsRead(l: Load, xs: seq<SettlementReport>)
    requires l.headerSeen
    ensures ReadRows(l, SettlementRows(xs)) == WithSettlements(l, RejoinAll(l.snapshot.settlements, xs))
    decreases |xs|
  {
    if xs != [] {
      SettlementBlockReads(l, xs[0]);
      var next := WithSettlements(l, Rejoin(l.snapshot.settlements, xs[0]));
      SettlementRowsRead(next, xs[1..]);
      ReadRowsConcat(l, SettlementBlock(xs[0]), SettlementRows(xs[1..]));
    }
  }

  lemma PriceRowsStep(l: Load, xs: seq<MarketPrice>)
    requires l.headerSeen && xs != []
    ensures ReadRows(l, PriceRows(xs)) == ReadRows(AddPrices(l, [xs[0]]), PriceRows(xs[1..]))
  {
    PriceRowReads(l, xs[0]);
    ReadStep(l, PriceRows(xs), PriceRow(xs[0]), PriceRows(xs[1..]));
  }

  lemma {:induction false} PriceRowsRead(l: Load, xs: seq<MarketPrice>)
    requires l.headerSeen
    ensures ReadRows(l, PriceRows(xs)) == AddPrices(l, xs)
    decreases |xs|
  {
    AddOneByOne(l, xs, []);
    if xs != [] {
      PriceRowsStep(l, xs);
      PriceRowsRead(AddPrices(l, [xs[0]]), xs[1..]);
    }
  }

  lemma EventRowsStep(l: Load, xs: seq<SimulationEvent>)
    requires l.headerSeen && xs != []
    ensures ReadRows(l, EventRows(xs)) == ReadRows(AddEvents(l, [xs[0]]), EventRows(xs[1..]))
  {
    EventRowReads(l, xs[0]);
    ReadStep(l, EventRows(xs), EventRow(xs[0]), EventRows(xs[1..]));
  }

  lemma {:induction false} EventRowsRead(l: Load, xs: seq<SimulationEvent>)
    requires l.headerSeen
    ensures ReadRows(l, EventRows(xs)) == AddEvents(l, xs)
    decreases |xs|
  {
    AddOneByOne(l, [], xs);
    if xs != [] {
      EventRowsStep(l, xs);
      EventRowsRead(AddEvents(l, [xs[0]]), xs[1..]);
    }
  }

  lemma TopRowsRead(s: SimulationSnapshot)
    ensures ReadRows(EMPTY_LOAD, TopRows(s)) ==
            EMPTY_LOAD.(headerSeen := true, snapshot := EMPTY_LOAD.snapshot.(day := s.day))
  {
    var day: Row := ["day", Dec(s.day)];
    Num64Dec(s.day);
    var l := EMPTY_LOAD.(headerSeen := true);
    assert ReadRow(EMPTY_LOAD, HEADER) == l;
    ReadStep(EMPTY_LOAD, TopRows(s), HEADER, [day]);
    assert ReadRow(l, day) == l.(snapshot := l.snapshot.(day := s.day));
    ReadStep(l, [day], day, []);
  }

  lemma MarketRowsRead(l: Load, s: SimulationSnapshot)
    requires l.headerSeen && l.snapshot.market.prices == [] && l.snapshot.events == []
    ensures ReadRows(l, MarketRows(s)) ==
            l.(snapshot := l.snapshot.(market := s.market, events := s.events), marketSeen := true)
  {
    var m := s.market;
    MarketRowReads(l, m);
    var l1 := ReadRow(l, MarketRow(m));
    assert [MarketRow(m)][1..] == [];
    assert ReadRows(l, [MarketRow(m)]) == l1;
    PriceRowsRead(l1, m.prices);
    var l2 := l1.(snapshot := l1.snapshot.(market := m));
    assert [] + m.prices == m.prices && [] + s.events == s.events;
    EventRowsRead(l2, s.events);
    ReadRowsConcat(l, [MarketRow(m)], PriceRows(m.prices));
    ReadRowsConcat(l, [MarketRow(m)] + PriceRows(m.prices), EventRows(s.events));
  }

  // Reading a printed snapshot never reports an error or a warning, and gives everything back
  // except that stock and building rows sit with the first settlement that has their id.
  lemma PrintedSnapshotReads(s: SimulationSnapshot)
    ensures Deserialized(Print(Rows(s))) == LoadResult(s.(settlements := RejoinAll([], s.settlements)), 0, 0)
  {
    var rows := Rows(s);
    RowsAreClean(s);
    CleanLinesRead(EMPTY_LOAD, rows);
    SplitTerminated(Lines(rows));
    var top := EMPTY_LOAD.(headerSeen := true, snapshot := EMPTY_LOAD.snapshot.(day := s.day));
    TopRowsRead(s);
    SettlementRowsRead(top, s.settlements);
    var mid := WithSettlements(top, RejoinAll([], s.settlements));
    MarketRowsRead(mid, s);
    ReadRowsConcat(EMPTY_LOAD, TopRows(s), SettlementRows(s.settlements));
    ReadRowsConcat(EMPTY_LOAD, TopRows(s) + SettlementRows(s.settlements), MarketRows(s));
  }

  // ---- when that is the snapshot itself ----

  predicate HasRows(x: SettlementReport) { x.storage != [] || x.buildings != [] }

  // Every settlement that has stock or buildings is the first one with its id.
  predicate RowsNameTheirOwner(xs: seq<SettlementReport>) {
    forall j, k :: 0 <= j < k < |xs| && HasRows(xs[k]) ==> xs[j].id != xs[k].id
  }

  lemma RejoinOwner(ss: seq<SettlementReport>, x: SettlementReport)
    requires HasRows(x) ==> FirstIndex(ss, x.id) == |ss|
    ensures Rejoin(ss, x) == ss + [x]
  {
    hide FirstIndex;
    var tt := ss + [Bare(x)];
    assert tt[|ss|].id == x.id;
    var i := FirstIndex(tt, x.id);
    if HasRows(x) {
      assert [] + x.storage == x.storage && [] + x.buildings == x.buildings;
    } else {
      assert tt[i].storage + x.storage == tt[i].storage && tt[i].buildings + x.buildings == tt[i].buildings;
      assert Bare(x) == x;
    }
  }

  lemma {:induction false} OwnedRowsStay(ss: seq<SettlementReport>, xs: seq<SettlementReport>)
    requires RowsNameTheirOwner(ss + xs)
    ensures RejoinAll(ss, xs) == ss + xs
    decreases |xs|
  {
    if xs == [] {
      assert ss + xs == ss;
    } else {
      var x := xs[0];
      assert (ss + xs)[|ss|] == x;
      if HasRows(x) {
        forall j | 0 <= j < |ss| ensures ss[j].id != x.id { assert (ss + xs)[j] == ss[j]; }
      }
      RejoinOwner(ss, x);
      assert ss + [x] + xs[1..] == ss + xs;
      OwnedRowsStay(ss + [x], xs[1..]);
    }
  }

  // No later bearer of an id ever receives rows.
  lemma RejoinKeepsOwnership(ss: seq<SettlementReport>, x: SettlementReport)
    requires RowsNameTheirOwner(ss)
    ensures RowsNameTheirOwner(Rejoin(ss, x))
  {
    var tt := ss + [Bare(x)];
    assert tt[|ss|].id == x.id;
    assert RowsNameTheirOwner(tt);
    var i := FirstIndex(tt, x.id);
    var uu := Rejoin(ss, x);
    forall j, k | 0 <= j < k < |uu| && HasRows(uu[k]) ensures uu[j].id != uu[k].id {
      assert uu[j].id == tt[j].id && uu[k].id == tt[k].id;
      if k != i { assert uu[k] == tt[k]; }
    }
  }

  lemma {:induction false} RejoinAllKeepsOwnership(ss: seq<SettlementReport>, xs: seq<SettlementReport>)
    requires RowsNameTheirOwner(ss)
    ensures RowsNameTheirOwner(RejoinAll(ss, xs))
    decreases |xs|
  {
    if xs != [] {
      RejoinKeepsOwnership(ss, xs[0]);
      RejoinAllKeepsOwnership(Rejoin(ss, xs[0]), xs[1..]);
    }
  }

  // The round trip is exact if and only if no settlement with rows repeats an earlier id.
  lemma SnapshotRoundTrip(s: SimulationSnapshot)
    ensures Deserialized(Print(Rows(s))) == LoadResult(s, 0, 0) <==> RowsNameTheirOwner(s.settlements)
  {
    PrintedSnapshotReads(s);
    assert [] + s.settlements == s.settlements;
    if RowsNameTheirOwner(s.settlements) {
      OwnedRowsStay([], s.settlements);
    }
    RejoinAllKeepsOwnership([], s.settlements);
  }

  lemma DistinctIdsRoundTrip(s: SimulationSnapshot)
    requires forall j, k :: 0 <= j < k < |s.settlements| ==> s.settlements[j].id != s.settlements[k].id
    ensures Deserialized(Print(Rows(s))) == LoadResult(s, 0, 0)
  {
    SnapshotRoundTrip(s);
  }

  // Saving then loading, as the two methods do it.
  method SaveThenLoad(s: SimulationSnapshot) returns (result: LoadResult)
    ensures result.errors == 0 && result.warnings == 0
    ensures result.snapshot == s <==> RowsNameTheirOwner(s.settlements)
  {
    var text := SerializeSnapshot(s);
    result := DeserializeSnapshot(text);
    PrintedSnapshotReads(s);
    SnapshotRoundTrip(s);
  }

  // Two settlements sharing an id: the second one's stock comes back on the first.
  lemma SharedIdLosesItsRows()
    ensures var a := SettlementReport("a", "A", 1, [], [], 0);
            var b := SettlementReport("a", "B", 2, [ResourceAmount("grain", 5)], [], 5);
            var s := SimulationSnapshot(0, [a, b], MarketReport([], 0, 0, 0, 0, 0), []);
            Deserialized(Print(Rows(s))) != LoadResult(s, 0, 0)
  {
    var a := SettlementReport("a", "A", 1, [], [], 0);
    var b := SettlementReport("a", "B", 2, [ResourceAmount("grain", 5)], [], 5);
    var s := SimulationSnapshot(0, [a, b], MarketReport([], 0, 0, 0, 0, 0), []);
    SnapshotRoundTrip(s);
    assert HasRows(s.settlements[1]) && s.settlements[0].id == s.settlements[1].id;
  }
}
