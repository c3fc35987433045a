// Which texts load without an error, and what the snapshot then holds, told from their lines alone.
module SnapshotAcceptance {
  import opened U64
  import opened Text
  import opened Escaping
  import opened Records
  import opened SnapshotCodec
  import opened SnapshotRoundTrip

  // ---- fields ----

  predicate Is64(s: string) { s != [] && AllDigits(s) && Value(s) <= U64_MAX }

  predicate Is32(s: string) { s != [] && AllDigits(s) && Value(s) <= U32_MAX }

  function Nibble(c: char): Option<nat> {
    match c
    case '0' => Some(0) case '1' => Some(1) case '2' => Some(2) case '3' => Some(3)
    case '4' => Some(4) case '5' => Some(5) case '6' => Some(6) case '7' => Some(7)
    case '8' => Some(8) case '9' => Some(9)
    case 'A' => Some(10) case 'B' => Some(11) case 'C' => Some(12)
    case 'D' => Some(13) case 'E' => Some(14) case 'F' => Some(15)
    case 'a' => Some(10) case 'b' => Some(11) case 'c' => Some(12)
    case 'd' => Some(13) case 'e' => Some(14) case 'f' => Some(15)
    case _ => None
  }

  predicate StartsWithHexPair(p: string) { |p| >= 2 && Nibble(p[0]).Some? && Nibble(p[1]).Some? }

  // Every `%` starts a pair of hexadecimal digits.
  predicate Paired(s: string) {
    forall p :: p in Split(s, '%')[1..] ==> StartsWithHexPair(p)
  }

  function DecodedPieces(ps: seq<string>): string
    requires forall p :: p in ps ==> StartsWithHexPair(p)
  {
    if ps == [] then []
    else
      var p := ps[0];
      assert StartsWithHexPair(p) by { assert p in ps; }
      [(16 * Nibble(p[0]).value + Nibble(p[1]).value) as char] + p[2..] + DecodedPieces(ps[1..])
  }

  // The text up to the first `%`, then for each `%` the character its pair is the code of and what follows.
  function Decoded(s: string): string
    requires Paired(s)
  {
    Split(s, '%')[0] + DecodedPieces(Split(s, '%')[1..])
  }

  lemma NibbleIsHexValue(c: char)
    ensures HexValue(c) == if Nibble(c).Some? then Nibble(c).value else -1
  {
  }

  lemma SplitHead(s: string, sep: char)
    requires s != []
    ensures var t := Split(s[1..], sep);
            Split(s, sep) == if s[0] == sep then [[]] + t else [[s[0]] + t[0]] + t[1..]
  {
  }

  lemma SplitEmpty(sep: char)
    ensures Split([], sep) == [[]]
  {
  }

  // What follows a `%`: its first piece holds fewer than two characters, or begins with the next two.
  lemma MarkedSplit(s: string)
    requires s != [] && s[0] == '%'
    ensures Split(s, '%')[0] == []
    ensures var r := Split(s, '%')[1..];
            if |s| < 3 || s[1] == '%' || s[2] == '%' then r != [] && |r[0]| < 2
            else r == [[s[1]] + ([s[2]] + Split(s[3..], '%')[0])] + Split(s[3..], '%')[1..]
  {
    hide Split;
    SplitHead(s, '%');
    var r := Split(s[1..], '%');
    assert Split(s, '%')[1..] == r;
    if |s| == 1 {
      SplitEmpty('%');
    } else {
      SplitHead(s[1..], '%');
      assert s[1..][1..] == s[2..];
      if |s| == 2 {
        assert s[2..] == [];
        SplitEmpty('%');
      } else {
        SplitHead(s[2..], '%');
        assert s[2..][1..] == s[3..];
      }
    }
  }

  lemma PairedStep(s: string)
    requires s != [] && s[0] == '%'
    ensures Paired(s) <==>
      |s| >= 3 && Nibble(s[1]).Some? && Nibble(s[2]).Some? && Paired(s[3..])
    ensures Paired(s) ==>
      Decoded(s) == [(16 * Nibble(s[1]).value + Nibble(s[2]).value) as char] + Decoded(s[3..])
  {
    hide Split;
    MarkedSplit(s);
    var r := Split(s, '%')[1..];
    if |s| < 3 || s[1] == '%' || s[2] == '%' {
      assert r[0] in r && !StartsWithHexPair(r[0]);
      assert Nibble('%') == None;
    } else {
      hide Nibble;
      var t := Split(s[3..], '%');
      assert r[0] in r && r[1..] == t[1..];
      assert r[0][0] == s[1] && r[0][1] == s[2] && r[0][2..] == t[0];
    }
  }

  // A field reads without an error exactly when every `%` is paired, and then as its decoding.
  lemma {:induction false} UnescapeExactly(s: string)
    ensures Unescape(s).errors == if Paired(s) then 0 else 1
    ensures Paired(s) ==> Unescape(s).text == Decoded(s)
  {
    if s == [] {
    } else if s[0] == '%' {
      hide HexValue, Nibble, Split, Decoded, Paired;
      PairedStep(s);
      if |s| >= 3 {
        NibbleIsHexValue(s[1]);
        NibbleIsHexValue(s[2]);
        UnescapeExactly(s[3..]);
      }
    } else {
      UnescapeExactly(s[1..]);
      var r := Split(s[1..], '%');
      assert Split(s, '%')[1..] == r[1..];
    }
  }

  // ---- rows ----

  const HEAD: Row := ["CLC_SIM_SNAPSHOT", "1"]

  // The fields of the lines that are not empty.
  function KeptRows(lines: seq<string>): seq<Row> {
    if lines == [] then []
    else
      var line := StripCr(lines[0]);
      (if line == [] then [] else [Split(line, TAB)]) + KeptRows(lines[1..])
  }

  // The rows with this tag, in order.
  function Tagged(rows: seq<Row>, tag: string): seq<Row> {
    if rows == [] then []
    else Tagged(rows[..|rows| - 1], tag) + if rows[|rows| - 1][0] == tag then [rows[|rows| - 1]] else []
  }

  predicate Names(f: Row, id: string) { |f| > 1 && Paired(f[1]) && Decoded(f[1]) == id }

  // A settlement row in `before` has the id that the row `f` names.
  predicate NamesEarlier(before: seq<Row>, f: Row) {
    |f| > 1 && Paired(f[1]) && exists g :: g in Tagged(before, "settlement") && Names(g, Decoded(f[1]))
  }

  predicate WellFormed(before: seq<Row>, f: Row) {
    || f == HEAD
    || (f[0] == "day" && |f| == 2 && Is64(f[1]))
    || (f[0] == "settlement" && |f| == 5 && Paired(f[1]) && Paired(f[2]) && Is64(f[3]) && Is64(f[4]))
    || (f[0] == "storage" && |f| == 4 && NamesEarlier(before, f) && Paired(f[2]) && Is64(f[3]))
    || (f[0] == "building" && |f| == 6 && NamesEarlier(before, f) && Paired(f[2]) && Paired(f[3])
        && Is32(f[4]) && Is32(f[5]))
    || (f[0] == "market" && |f| == 6 && forall i :: 1 <= i < 6 ==> Is64(f[i]))
    || (f[0] == "price" && |f| == 7 && Paired(f[1]) && (forall i :: 2 <= i < 6 ==> Is64(f[i])) && Paired(f[6]))
    || (f[0] == "event" && |f| == 4 && Is64(f[1]) && Paired(f[2]) && Paired(f[3]))
  }

  // The first row is the header, and every row is well formed after the ones before it.
  predicate Acceptable(rows: seq<Row>) {
    && (rows != [] ==> rows[0] == HEAD)
    && forall k :: 0 <= k < |rows| ==> WellFormed(rows[..k], rows[k])
  }

  lemma TaggedSnoc(rows: seq<Row>, f: Row)
    ensures forall tag :: Tagged(rows + [f], tag) ==
                          if f[0] == tag then Tagged(rows, tag) + [f] else Tagged(rows, tag)
  {
    assert (rows + [f])[..|rows|] == rows;
  }

  lemma AcceptableSnoc(rows: seq<Row>, f: Row)
    ensures Acceptable(rows + [f]) <==>
            Acceptable(rows) && WellFormed(rows, f) && (rows == [] ==> f == HEAD)
  {
    hide WellFormed;
    var all := rows + [f];
    assert all[..|rows|] == rows && all[|rows|] == f;
    assert forall k :: 0 <= k < |rows| ==> all[..k] == rows[..k] && all[k] == rows[k];
    if Acceptable(all) {
      forall k | 0 <= k < |rows| ensures WellFormed(rows[..k], rows[k]) {
        assert WellFormed(all[..k], all[k]);
      }
    }
  }

  // ---- what an accepted text holds ----

  predicate TellsHead(f: Row, x: SettlementReport) {
    && |f| == 5 && Names(f, x.id) && Paired(f[2]) && Is64(f[3]) && Is64(f[4])
    && x.displayName == Decoded(f[2]) && x.population == Value(f[3]) && x.totalStoredResources == Value(f[4])
  }

  predicate TellsStock(f: Row, x: ResourceAmount) {
    |f| == 4 && Paired(f[2]) && Is64(f[3]) && x.resourceId == Decoded(f[2]) && x.amount == Value(f[3])
  }

  predicate TellsBuilding(f: Row, x: BuildingReport) {
    && |f| == 6 && Paired(f[2]) && Paired(f[3]) && Is32(f[4]) && Is32(f[5])
    && x.definitionId == Decoded(f[2]) && x.displayName == Decoded(f[3])
    && x.assignedWorkers == Value(f[4]) && x.workerSlots == Value(f[5])
  }

  predicate TellsTotals(f: Row, m: MarketReport) {
    && |f| == 6 && (forall i :: 1 <= i < 6 ==> Is64(f[i]))
    && m.totalSupply == Value(f[1]) && m.totalDemand == Value(f[2]) && m.averagePrice == Value(f[3])
    && m.minPrice == Value(f[4]) && m.maxPrice == Value(f[5])
  }

  predicate TellsPrice(f: Row, x: MarketPrice) {
    && |f| == 7 && Paired(f[1]) && (forall i :: 2 <= i < 6 ==> Is64(f[i])) && Paired(f[6])
    && x.resourceId == Decoded(f[1]) && x.baseValue == Value(f[2]) && x.supply == Value(f[3])
    && x.demand == Value(f[4]) && x.price == Value(f[5]) && x.reason == Decoded(f[6])
  }

  predicate TellsEvent(f: Row, x: SimulationEvent) {
    && |f| == 4 && Is64(f[1]) && Paired(f[2]) && Paired(f[3])
    && x.day == Value(f[1]) && x.kind == Decoded(f[2]) && x.message == Decoded(f[3])
  }

  // Row by row, in order.
  predicate Each<T>(fs: seq<Row>, xs: seq<T>, tells: (Row, T) -> bool) {
    |fs| == |xs| && forall i :: 0 <= i < |fs| ==> tells(fs[i], xs[i])
  }

  // The rows that name this id, in order.
  function Naming(fs: seq<Row>, id: string): seq<Row> {
    if fs == [] then []
    else Naming(fs[..|fs| - 1], id) + if Names(fs[|fs| - 1], id) then [fs[|fs| - 1]] else []
  }

  // The rows of settlement `i`: none when an earlier settlement has its id.
  function Owned(fs: seq<Row>, ss: seq<SettlementReport>, i: nat): seq<Row>
    requires i < |ss|
  {
    if exists j :: 0 <= j < i && ss[j].id == ss[i].id then [] else Naming(fs, ss[i].id)
  }

  predicate HoldsDay(days: seq<Row>, day: u64) {
    if days == [] then day == 0
    else
      var f := days[|days| - 1];
      |f| == 2 && Is64(f[1]) && day == Value(f[1])
  }

  predicate HoldsTotals(totals: seq<Row>, m: MarketReport) {
    if totals == [] then m.totalSupply == m.totalDemand == m.averagePrice == m.minPrice == m.maxPrice == 0
    else TellsTotals(totals[|totals| - 1], m)
  }

  predicate HoldsStock(stock: seq<Row>, ss: seq<SettlementReport>) {
    forall i :: 0 <= i < |ss| ==> Each(Owned(stock, ss, i), ss[i].storage, TellsStock)
  }

  predicate HoldsBuildings(buildings: seq<Row>, ss: seq<SettlementReport>) {
    forall i :: 0 <= i < |ss| ==> Each(Owned(buildings, ss, i), ss[i].buildings, TellsBuilding)
  }

  // The last day row, the last market row, and every other row in order.
  predicate Holds(rows: seq<Row>, s: SimulationSnapshot) {
    && HoldsDay(Tagged(rows, "day"), s.day)
    && Each(Tagged(rows, "settlement"), s.settlements, TellsHead)
    && HoldsStock(Tagged(rows, "storage"), s.settlements)
    && HoldsBuildings(Tagged(rows, "building"), s.settlements)
    && HoldsTotals(Tagged(rows, "market"), s.market)
    && Each(Tagged(rows, "price"), s.market.prices, TellsPrice)
    && Each(Tagged(rows, "event"), s.events, TellsEvent)
  }

  // ---- reading one row ----

  // A number that cannot be read is one error and counts as zero.
  lemma NumbersExactly(s: string)
    ensures Num64(s) == if Is64(s) then Number(Value(s), 0) else Number(0, 1)
    ensures Num32(s) == if Is32(s) then Number(Value(s), 0) else Number(0, 1)
  {
  }

  lemma EachSnoc<T>(fs: seq<Row>, xs: seq<T>, f: Row, x: T, tells: (Row, T) -> bool)
    requires Each(fs, xs, tells) && tells(f, x)
    ensures Each(fs + [f], xs + [x], tells)
  {
  }

  // Every stock and building row read so far names a settlement that is there.
  predicate Owners(fs: seq<Row>, ss: seq<SettlementReport>) {
    forall f :: f in fs ==> exists x :: x in ss && Names(f, x.id)
  }

  predicate Told(rows: seq<Row>, s: SimulationSnapshot) {
    && Holds(rows, s)
    && Owners(Tagged(rows, "storage"), s.settlements)
    && Owners(Tagged(rows, "building"), s.settlements)
  }

  lemma EventTold(rows: seq<Row>, l: Load, f: Row)
    requires Told(rows, l.snapshot) && f[0] == "event" && |f| == 4
    ensures ReadEvent(l, f).errors == l.errors <==> WellFormed(rows, f)
    ensures WellFormed(rows, f) ==> Told(rows + [f], ReadEvent(l, f).snapshot)
  {
    hide Tagged, Paired, Decoded, Unescape, HoldsDay, HoldsTotals, HoldsStock, HoldsBuildings, Each, Owners;
    NumbersExactly(f[1]);
    UnescapeExactly(f[2]);
    UnescapeExactly(f[3]);
    if WellFormed(rows, f) {
      var r := ReadEvent(l, f).snapshot;
      TaggedSnoc(rows, f);
      EachSnoc(Tagged(rows, "event"), l.snapshot.events, f, r.events[|l.snapshot.events|], TellsEvent);
    }
  }

  lemma PriceTold(rows: seq<Row>, l: Load, f: Row)
    requires Told(rows, l.snapshot) && f[0] == "price" && |f| == 7
    ensures ReadPrice(l, f).errors == l.errors <==> WellFormed(rows, f)
    ensures WellFormed(rows, f) ==> Told(rows + [f], ReadPrice(l, f).snapshot)
  {
    hide Tagged, Paired, Decoded, Unescape, HoldsDay, HoldsStock, HoldsBuildings, Each, Owners, Num64, Num32;
    hide Is64, Is32;
    UnescapeExactly(f[1]);
    forall i | 2 <= i < 6 { NumbersExactly(f[i]); }
    UnescapeExactly(f[6]);
    if WellFormed(rows, f) {
      var r := ReadPrice(l, f).snapshot;
      var ps := l.snapshot.market.prices;
      TaggedSnoc(rows, f);
      EachSnoc(Tagged(rows, "price"), ps, f, r.market.prices[|ps|], TellsPrice);
    }
  }

  lemma MarketTold(rows: seq<Row>, l: Load, f: Row)
    requires Told(rows, l.snapshot) && f[0] == "market" && |f| == 6
    ensures ReadMarket(l, f).errors == l.errors <==> WellFormed(rows, f)
    ensures WellFormed(rows, f) ==> Told(rows + [f], ReadMarket(l, f).snapshot)
  {
    hide Tagged, Paired, Decoded, Unescape, HoldsDay, HoldsStock, HoldsBuildings, Each, Owners, Num64, Num32;
    hide Is64, Is32;
    forall i | 1 <= i < 6 { NumbersExactly(f[i]); }
    if WellFormed(rows, f) {
      TaggedSnoc(rows, f);
    }
  }

  // ---- rows that belong to a settlement ----

  lemma NamingSnoc(fs: seq<Row>, f: Row, id: string)
    ensures Naming(fs + [f], id) == if Names(f, id) then Naming(fs, id) + [f] else Naming(fs, id)
  {
    assert (fs + [f])[..|fs|] == fs;
  }

  lemma {:induction false} NoneNamed(fs: seq<Row>, id: string)
    requires forall f :: f in fs ==> !Names(f, id)
    ensures Naming(fs, id) == []
  {
    if fs != [] { NoneNamed(fs[..|fs| - 1], id); }
  }

  // A settlement that is added takes over no earlier row.
  lemma NewcomerOwnsNothing(fs: seq<Row>, ss: seq<SettlementReport>, x: SettlementReport)
    requires Owners(fs, ss)
    ensures forall i :: 0 <= i < |ss| ==> Owned(fs, ss + [x], i) == Owned(fs, ss, i)
    ensures Owned(fs, ss + [x], |ss|) == []
    ensures Owners(fs, ss + [x])
  {
    hide Naming;
    var tt := ss + [x];
    assert forall j :: 0 <= j < |ss| ==> tt[j] == ss[j];
    assert forall y :: y in ss ==> y in tt;
    if forall j :: 0 <= j < |ss| ==> ss[j].id != x.id {
      forall f | f in fs ensures !Names(f, x.id) {
        var y :| y in ss && Names(f, y.id);
      }
      NoneNamed(fs, x.id);
    }
  }

  lemma NewcomerIsTold(stock: seq<Row>, buildings: seq<Row>, ss: seq<SettlementReport>, x: SettlementReport)
    requires Owners(stock, ss) && Owners(buildings, ss) && x.storage == [] && x.buildings == []
    requires HoldsStock(stock, ss) && HoldsBuildings(buildings, ss)
    ensures Owners(stock, ss + [x]) && Owners(buildings, ss + [x])
    ensures HoldsStock(stock, ss + [x]) && HoldsBuildings(buildings, ss + [x])
  {
    hide Owned, Owners;
    NewcomerOwnsNothing(stock, ss, x);
    NewcomerOwnsNothing(buildings, ss, x);
  }

  // One settlement got a row; the ids stay.
  predicate SameIds(ss: seq<SettlementReport>, tt: seq<SettlementReport>) {
    |ss| == |tt| && forall j :: 0 <= j < |ss| ==> tt[j].id == ss[j].id
  }

  lemma OwnersStay(fs: seq<Row>, ss: seq<SettlementReport>, tt: seq<SettlementReport>)
    requires Owners(fs, ss) && SameIds(ss, tt)
    ensures Owners(fs, tt)
    ensures forall i :: 0 <= i < |ss| ==> Owned(fs, tt, i) == Owned(fs, ss, i)
  {
    forall g | g in fs ensures exists y :: y in tt && Names(g, y.id) {
      var x :| x in ss && Names(g, x.id);
      var j :| 0 <= j < |ss| && ss[j] == x;
      assert tt[j] in tt && Names(g, tt[j].id);
    }
  }

  // A row that names `id` goes to the first settlement with that id and to no other.
  lemma FirstIsOwner(fs: seq<Row>, ss: seq<SettlementReport>, f: Row)
    requires |f| > 1 && Paired(f[1]) && FirstIndex(ss, Decoded(f[1])) < |ss| && Owners(fs, ss)
    ensures Owners(fs + [f], ss)
    ensures forall i :: 0 <= i < |ss| ==>
              Owned(fs + [f], ss, i) ==
              (if i == FirstIndex(ss, Decoded(f[1])) then Owned(fs, ss, i) + [f] else Owned(fs, ss, i))
  {
    hide Naming, FirstIndex;
    var at := FirstIndex(ss, Decoded(f[1]));
    assert ss[at] in ss && Names(f, ss[at].id);
    forall i | 0 <= i < |ss| ensures Owned(fs + [f], ss, i) ==
              if i == at then Owned(fs, ss, i) + [f] else Owned(fs, ss, i) {
      NamingSnoc(fs, f, ss[i].id);
    }
  }

  lemma NamedIsFound(rows: seq<Row>, ss: seq<SettlementReport>, f: Row)
    requires Each(Tagged(rows, "settlement"), ss, TellsHead) && |f| > 1
    ensures NamesEarlier(rows, f) <==> Paired(f[1]) && FirstIndex(ss, Decoded(f[1])) < |ss|
  {
    hide Tagged, FirstIndex, Paired, Decoded;
    var heads := Tagged(rows, "settlement");
    if Paired(f[1]) {
      var id := Decoded(f[1]);
      var i := FirstIndex(ss, id);
      if i < |ss| {
        assert TellsHead(heads[i], ss[i]) && heads[i] in heads && Names(heads[i], id);
      }
      if NamesEarlier(rows, f) {
        var g :| g in heads && Names(g, id);
        var k :| 0 <= k < |heads| && heads[k] == g;
        assert TellsHead(heads[k], ss[k]);
      }
    }
  }

  lemma SettlementTold(rows: seq<Row>, l: Load, f: Row)
    requires Told(rows, l.snapshot) && f[0] == "settlement" && |f| == 5
    ensures ReadSettlement(l, f).errors == l.errors <==> WellFormed(rows, f)
    ensures WellFormed(rows, f) ==> Told(rows + [f], ReadSettlement(l, f).snapshot)
  {
    hide Tagged, Paired, Decoded, Unescape, HoldsDay, HoldsTotals, Owners, Num64, Num32, Is64, Is32, Each;
    hide HoldsStock, HoldsBuildings;
    UnescapeExactly(f[1]);
    UnescapeExactly(f[2]);
    NumbersExactly(f[3]);
    NumbersExactly(f[4]);
    if WellFormed(rows, f) {
      var ss := l.snapshot.settlements;
      var x := ReadSettlement(l, f).snapshot.settlements[|ss|];
      TaggedSnoc(rows, f);
      EachSnoc(Tagged(rows, "settlement"), ss, f, x, TellsHead);
      NewcomerIsTold(Tagged(rows, "storage"), Tagged(rows, "building"), ss, x);
    }
  }

  lemma StockJoins(rows: seq<Row>, ss: seq<SettlementReport>, f: Row, r: ResourceAmount)
    requires |f| > 1 && Paired(f[1]) && FirstIndex(ss, Decoded(f[1])) < |ss| && TellsStock(f, r)
    requires Each(Tagged(rows, "settlement"), ss, TellsHead)
    requires var fs := Tagged(rows, "storage"); Owners(fs, ss) && HoldsStock(fs, ss)
    requires var bs := Tagged(rows, "building"); Owners(bs, ss) && HoldsBuildings(bs, ss)
    ensures var tt := AddStorage(ss, Decoded(f[1]), r);
            && Each(Tagged(rows, "settlement"), tt, TellsHead)
            && (var fs := Tagged(rows, "storage") + [f]; Owners(fs, tt) && HoldsStock(fs, tt))
            && (var bs := Tagged(rows, "building"); Owners(bs, tt) && HoldsBuildings(bs, tt))
  {
    hide Tagged, Paired, Decoded, Owned, Owners, FirstIndex, TellsStock, TellsBuilding;
    var tt := AddStorage(ss, Decoded(f[1]), r);
    var fs, bs := Tagged(rows, "storage"), Tagged(rows, "building");
    FirstIsOwner(fs, ss, f);
    OwnersStay(fs + [f], ss, tt);
    OwnersStay(bs, ss, tt);
    var at := FirstIndex(ss, Decoded(f[1]));
    EachSnoc(Owned(fs, ss, at), ss[at].storage, f, r, TellsStock);
  }

  lemma BuildingJoins(rows: seq<Row>, ss: seq<SettlementReport>, f: Row, b: BuildingReport)
    requires |f| > 1 && Paired(f[1]) && FirstIndex(ss, Decoded(f[1])) < |ss| && TellsBuilding(f, b)
    requires Each(Tagged(rows, "settlement"), ss, TellsHead)
    requires var fs := Tagged(rows, "storage"); Owners(fs, ss) && HoldsStock(fs, ss)
    requires var bs := Tagged(rows, "building"); Owners(bs, ss) && HoldsBuildings(bs, ss)
    ensures var tt := AddBuilding(ss, Decoded(f[1]), b);
            && Each(Tagged(rows, "settlement"), tt, TellsHead)
            && (var fs := Tagged(rows, "storage"); Owners(fs, tt) && HoldsStock(fs, tt))
            && (var bs := Tagged(rows, "building") + [f]; Owners(bs, tt) && HoldsBuildings(bs, tt))
  {
    hide Tagged, Paired, Decoded, Owned, Owners, FirstIndex, TellsStock, TellsBuilding;
    var tt := AddBuilding(ss, Decoded(f[1]), b);
    var fs, bs := Tagged(rows, "storage"), Tagged(rows, "building");
    FirstIsOwner(bs, ss, f);
    OwnersStay(bs + [f], ss, tt);
    OwnersStay(fs, ss, tt);
    var at := FirstIndex(ss, Decoded(f[1]));
    EachSnoc(Owned(bs, ss, at), ss[at].buildings, f, b, TellsBuilding);
  }

  lemma StorageTold(rows: seq<Row>, l: Load, f: Row)
    requires Told(rows, l.snapshot) && f[0] == "storage" && |f| == 4
    ensures ReadStorage(l, f).errors == l.errors <==> WellFormed(rows, f)
    ensures WellFormed(rows, f) ==> Told(rows + [f], ReadStorage(l, f).snapshot)
  {
    hide Tagged, Paired, Decoded, Unescape, HoldsDay, HoldsTotals, Owners, Num64, Num32, Value, Each;
    hide HoldsStock, HoldsBuildings, FirstIndex, NamesEarlier, AddStorage;
    UnescapeExactly(f[1]);
    UnescapeExactly(f[2]);
    NumbersExactly(f[3]);
    var ss := l.snapshot.settlements;
    NamedIsFound(rows, ss, f);
    if WellFormed(rows, f) {
      TaggedSnoc(rows, f);
      StockJoins(rows, ss, f, ResourceAmount(Decoded(f[2]), Value(f[3])));
    }
  }

  lemma BuildingTold(rows: seq<Row>, l: Load, f: Row)
    requires Told(rows, l.snapshot) && f[0] == "building" && |f| == 6
    ensures ReadBuilding(l, f).errors == l.errors <==> WellFormed(rows, f)
    ensures WellFormed(rows, f) ==> Told(rows + [f], ReadBuilding(l, f).snapshot)
  {
    hide Tagged, Paired, Decoded, Unescape, HoldsDay, HoldsTotals, Owners, Num64, Num32, Value, Each;
    hide HoldsStock, HoldsBuildings, FirstIndex, NamesEarlier, AddBuilding;
    UnescapeExactly(f[1]);
    UnescapeExactly(f[2]);
    UnescapeExactly(f[3]);
    NumbersExactly(f[4]);
    NumbersExactly(f[5]);
    var ss := l.snapshot.settlements;
    NamedIsFound(rows, ss, f);
    if WellFormed(rows, f) {
      TaggedSnoc(rows, f);
      BuildingJoins(rows, ss, f, BuildingReport(Decoded(f[2]), Decoded(f[3]), Value(f[4]), Value(f[5])));
    }
  }

  // ---- reading all rows ----

  lemma HeaderTold(rows: seq<Row>, l: Load, f: Row)
    requires Told(rows, l.snapshot) && f[0] == "CLC_SIM_SNAPSHOT"
    ensures ReadRow(l, f).errors == l.errors <==> WellFormed(rows, f)
    ensures f == HEAD <==> WellFormed(rows, f)
    ensures Told(rows + [f], ReadRow(l, f).snapshot)
  {
    hide Tagged, HoldsDay, HoldsTotals, HoldsStock, HoldsBuildings, Each, Owners, NamesEarlier, Paired, Is64, Is32;
    TaggedSnoc(rows, f);
  }

  lemma DayTold(rows: seq<Row>, l: Load, f: Row)
    requires Told(rows, l.snapshot) && l.headerSeen && f[0] == "day" && |f| == 2
    ensures ReadRow(l, f).errors == l.errors <==> WellFormed(rows, f)
    ensures WellFormed(rows, f) ==> Told(rows + [f], ReadRow(l, f).snapshot)
  {
    hide Tagged, HoldsTotals, HoldsStock, HoldsBuildings, Each, Owners, NamesEarlier, Paired, Num64, Num32;
    TaggedSnoc(rows, f);
    NumbersExactly(f[1]);
  }

  lemma RowTold(rows: seq<Row>, l: Load, f: Row)
    requires Told(rows, l.snapshot) && l.headerSeen
    ensures ReadRow(l, f).errors == l.errors <==> WellFormed(rows, f)
    ensures WellFormed(rows, f) ==> Told(rows + [f], ReadRow(l, f).snapshot)
  {
    hide Told, NamesEarlier, Paired, Num64, Is64, Is32;
    hide ReadSettlement, ReadStorage, ReadBuilding, ReadMarket, ReadPrice, ReadEvent;
    match f[0] {
      case "CLC_SIM_SNAPSHOT" => HeaderTold(rows, l, f);
      case "day" => if |f| == 2 { DayTold(rows, l, f); }
      case "settlement" => if |f| == 5 { SettlementTold(rows, l, f); }
      case "storage" => if |f| == 4 { StorageTold(rows, l, f); }
      case "building" => if |f| == 6 { BuildingTold(rows, l, f); }
      case "market" => if |f| == 6 { MarketTold(rows, l, f); }
      case "price" => if |f| == 7 { PriceTold(rows, l, f); }
      case "event" => if |f| == 4 { EventTold(rows, l, f); }
      case _ =>
    }
  }

  lemma {:induction false} KeptLinesRead(l: Load, lines: seq<string>)
    ensures ReadLines(l, lines) == ReadRows(l, KeptRows(lines))
    decreases |lines|
  {
    if lines != [] {
      KeptLinesRead(ReadLine(l, lines[0]), lines[1..]);
      hide ReadRow;
      var line := StripCr(lines[0]);
      if line != [] {
        ReadStep(l, KeptRows(lines), Split(line, TAB), KeptRows(lines[1..]));
      } else {
        assert KeptRows(lines) == KeptRows(lines[1..]);
      }
    }
  }

  lemma RowMarks(l: Load, f: Row)
    ensures var r := ReadRow(l, f);
            && r.errors >= l.errors
            && (r.headerSeen <==> l.headerSeen || f[0] == "CLC_SIM_SNAPSHOT")
            && (r.marketSeen <==> l.marketSeen || (l.headerSeen && f[0] == "market" && |f| == 6))
  {
    hide Unescape, Num64, Num32, FirstIndex, AddStorage, AddBuilding;
  }

  lemma FirstRowTold(f: Row)
    ensures ReadRow(EMPTY_LOAD, f).errors == 0 <==> f == HEAD
    ensures f == HEAD ==> Acceptable([f]) && Told([f], ReadRow(EMPTY_LOAD, f).snapshot)
    ensures Acceptable([]) && Told([], EMPTY_LOAD.snapshot)
  {
    hide WellFormed, Paired;
    if f[0] == "CLC_SIM_SNAPSHOT" {
      HeaderTold([], EMPTY_LOAD, f);
      assert [] + [f] == [f];
    }
  }

  // A row before any header, of an unknown tag, or with too many or too few fields is one error and leaves
  // the rest as it is.
  lemma OtherRowsAreErrors(l: Load, f: Row)
    requires f[0] != "CLC_SIM_SNAPSHOT"
    requires !l.headerSeen || (f[0], |f|) !in {("day", 2), ("settlement", 5), ("storage", 4), ("building", 6),
                                               ("market", 6), ("price", 7), ("event", 4)}
    ensures ReadRow(l, f) == l.(errors := l.errors + 1)
  {
  }

  // ---- whole texts ----

  predicate HasHeader(rows: seq<Row>) {
    exists f :: f in rows && f[0] == "CLC_SIM_SNAPSHOT"
  }

  lemma {:induction false} RowsTold(rows: seq<Row>)
    ensures var l := ReadRows(EMPTY_LOAD, rows);
            && (l.headerSeen <==> HasHeader(rows))
            && (l.errors == 0 <==> Acceptable(rows))
            && (Acceptable(rows) ==> Told(rows, l.snapshot))
  {
    hide WellFormed, Told, Acceptable;
    if rows == [] {
      FirstRowTold(HEAD);
    } else {
      var n := |rows| - 1;
      var before, f := rows[..n], rows[n];
      assert rows == before + [f];
      RowsTold(before);
      ReadRowsConcat(EMPTY_LOAD, before, [f]);
      var l := ReadRows(EMPTY_LOAD, before);
      ReadStep(l, [f], f, []);
      AcceptableSnoc(before, f);
      RowMarks(l, f);
      hide ReadRow;
      if before == [] {
        FirstRowTold(f);
      } else if Acceptable(before) {
        AcceptableHasHeader(before);
        RowTold(before, l, f);
      }
    }
  }

  lemma AcceptableHasHeader(rows: seq<Row>)
    requires Acceptable(rows) && rows != []
    ensures HasHeader(rows)
  {
    assert rows[0] in rows;
  }

  // A text loads without an error exactly when its first kept row is the header and every row is well formed.
  lemma AcceptedExactly(content: string)
    ensures var rows := KeptRows(Split(content, LF));
            Deserialized(content).errors == 0 <==> rows != [] && Acceptable(rows)
  {
    var rows := KeptRows(Split(content, LF));
    KeptLinesRead(EMPTY_LOAD, Split(content, LF));
    RowsTold(rows);
    if rows != [] && Acceptable(rows) { AcceptableHasHeader(rows); }
  }

  // The snapshot it gives then holds what the rows say, each row in its place.
  lemma AcceptedHolds(content: string)
    requires Deserialized(content).errors == 0
    ensures Holds(KeptRows(Split(content, LF)), Deserialized(content).snapshot)
  {
    KeptLinesRead(EMPTY_LOAD, Split(content, LF));
    RowsTold(KeptRows(Split(content, LF)));
  }

  // A market row of six fields after a header row.
  predicate HasMarket(rows: seq<Row>) {
    exists k :: 0 <= k < |rows| && rows[k][0] == "market" && |rows[k]| == 6 && HasHeader(rows[..k])
  }

  lemma {:induction false} MarketIsSeen(rows: seq<Row>)
    ensures ReadRows(EMPTY_LOAD, rows).marketSeen <==> HasMarket(rows)
  {
    if rows != [] {
      var n := |rows| - 1;
      var before, f := rows[..n], rows[n];
      assert rows == before + [f];
      MarketIsSeen(before);
      RowsTold(before);
      ReadRowsConcat(EMPTY_LOAD, before, [f]);
      var l := ReadRows(EMPTY_LOAD, before);
      ReadStep(l, [f], f, []);
      RowMarks(l, f);
      hide ReadRow, HasHeader, Acceptable, Told, ReadRows;
      assert forall k :: 0 <= k < n ==> before[..k] == rows[..k] && before[k] == rows[k];
    }
  }

  // The one warning is given exactly when no such row is there, whatever else is wrong with the text.
  lemma WarnedExactly(content: string)
    ensures Deserialized(content).warnings == if HasMarket(KeptRows(Split(content, LF))) then 0 else 1
  {
    KeptLinesRead(EMPTY_LOAD, Split(content, LF));
    MarketIsSeen(KeptRows(Split(content, LF)));
  }
}
