// The snapshot save format: a printer, a row reader, and their round trip.
module SnapshotCodec {
  import opened U64
  import opened Lookup
  import opened Text
  import opened Escaping
  import opened Records

  type Row = r: seq<string> | |r| > 0 witness [[]]

  // ---- the printed form ----

  function StorageRow(id: string, x: ResourceAmount): Row {
    ["storage", Escape(id), Escape(x.resourceId), Dec(x.amount)]
  }

  function BuildingRow(id: string, x: BuildingReport): Row {
    ["building", Escape(id), Escape(x.definitionId), Escape(x.displayName), Dec(x.assignedWorkers), Dec(x.workerSlots)]
  }

  function HeadRow(x: SettlementReport): Row {
    ["settlement", Escape(x.id), Escape(x.displayName), Dec(x.population), Dec(x.totalStoredResources)]
  }

  function MarketRow(m: MarketReport): Row {
    ["market", Dec(m.totalSupply), Dec(m.totalDemand), Dec(m.averagePrice), Dec(m.minPrice), Dec(m.maxPrice)]
  }

  function PriceRow(x: MarketPrice): Row {
    ["price", Escape(x.resourceId), Dec(x.baseValue), Dec(x.supply), Dec(x.demand), Dec(x.price), Escape(x.reason)]
  }

  function EventRow(x: SimulationEvent): Row {
    ["event", Dec(x.day), Escape(x.kind), Escape(x.message)]
  }

  function StorageRows(id: string, xs: seq<ResourceAmount>): seq<Row> {
    seq(|xs|, i requires 0 <= i < |xs| => StorageRow(id, xs[i]))
  }

  function BuildingRows(id: string, xs: seq<BuildingReport>): seq<Row> {
    seq(|xs|, i requires 0 <= i < |xs| => BuildingRow(id, xs[i]))
  }

  function PriceRows(xs: seq<MarketPrice>): seq<Row> {
    seq(|xs|, i requires 0 <= i < |xs| => PriceRow(xs[i]))
  }

  function EventRows(xs: seq<SimulationEvent>): seq<Row> {
    seq(|xs|, i requires 0 <= i < |xs| => EventRow(xs[i]))
  }

  function SettlementBlock(x: SettlementReport): seq<Row> {
    [HeadRow(x)] + StorageRows(x.id, x.storage) + BuildingRows(x.id, x.buildings)
  }

  function SettlementRows(xs: seq<SettlementReport>): seq<Row> {
    if xs == [] then [] else SettlementBlock(xs[0]) + SettlementRows(xs[1..])
  }

  const HEADER: Row := ["CLC_SIM_SNAPSHOT", "1"]

  function TopRows(s: SimulationSnapshot): seq<Row> {
    [HEADER, ["day", Dec(s.day)]]
  }

  function MarketRows(s: SimulationSnapshot): seq<Row> {
    [MarketRow(s.market)] + PriceRows(s.market.prices) + EventRows(s.events)
  }

  function Rows(s: SimulationSnapshot): seq<Row> {
    TopRows(s) + SettlementRows(s.settlements) + MarketRows(s)
  }

  function Lines(rows: seq<Row>): seq<string>
  {
    if rows == [] then [] else [Join(rows[0], TAB)] + Lines(rows[1..])
  }

  function Print(rows: seq<Row>): string
  {
    Terminated(Lines(rows))
  }

  lemma {:induction false} PrintSnoc(rows: seq<Row>, row: Row)
    ensures Print(rows + [row]) == Print(rows) + (Join(row, TAB) + [LF])
  {
    if rows == [] {
      assert rows + [row] == [row] && [row][1..] == [];
    } else {
      assert (rows + [row])[1..] == rows[1..] + [row];
      PrintSnoc(rows[1..], row);
      var tail := Print(rows[1..]);
      calc {
        Print(rows + [row]);
        Join(rows[0], TAB) + [LF] + Print(rows[1..] + [row]);
        Join(rows[0], TAB) + [LF] + (tail + (Join(row, TAB) + [LF]));
        Join(rows[0], TAB) + [LF] + tail + (Join(row, TAB) + [LF]);
      }
    }
  }

  method AppendLine(output: string, fields: Row, ghost before: seq<Row>) returns (r: string)
    requires output == Print(before)
    ensures r == Print(before + [fields])
  {
    r := output;
    var first := true;
    assert fields[0..] == fields;
    for i := 0 to |fields|
      invariant first == (i == 0)
      invariant i == 0 ==> r == output
      invariant 0 < i < |fields| ==> r + ([TAB] + Join(fields[i..], TAB)) == output + Join(fields, TAB)
      invariant i == |fields| ==> r == output + Join(fields, TAB)
    {
      if !first { r := r + [TAB]; }
      assert r + Join(fields[i..], TAB) == output + Join(fields, TAB);
      assert fields[i..][1..] == fields[i + 1..];
      r := r + fields[i];
      first := false;
    }
    PrintSnoc(before, fields);
    r := r + [LF];
  }

  method AppendRows(output: string, rows: seq<Row>, ghost before: seq<Row>) returns (r: string)
    requires output == Print(before)
    ensures r == Print(before + rows)
  {
    r := output;
    assert before + rows[..0] == before;
    for i := 0 to |rows|
      invariant r == Print(before + rows[..i])
    {
      assert before + rows[..i + 1] == before + rows[..i] + [rows[i]];
      r := AppendLine(r, rows[i], before + rows[..i]);
    }
    assert before + rows[..|rows|] == before + rows;
  }

  lemma {:induction false} SettlementRowsSnoc(xs: seq<SettlementReport>, x: SettlementReport)
    ensures SettlementRows(xs + [x]) == SettlementRows(xs) + SettlementBlock(x)
  {
    if xs == [] {
      assert (xs + [x])[1..] == [];
    } else {
      assert (xs + [x])[1..] == xs[1..] + [x];
      SettlementRowsSnoc(xs[1..], x);
    }
  }

  lemma SettlementRowsStep(xs: seq<SettlementReport>, i: nat, before: seq<Row>)
    requires i < |xs|
    ensures before + SettlementRows(xs[..i + 1]) == before + SettlementRows(xs[..i]) + SettlementBlock(xs[i])
  {
    assert xs[..i + 1] == xs[..i] + [xs[i]];
    SettlementRowsSnoc(xs[..i], xs[i]);
  }

  method AppendSettlements(output: string, xs: seq<SettlementReport>, ghost before: seq<Row>) returns (r: string)
    requires output == Print(before)
    ensures r == Print(before + SettlementRows(xs))
  {
    r := output;
    assert before + SettlementRows(xs[..0]) == before;
    for i := 0 to |xs|
      invariant r == Print(before + SettlementRows(xs[..i]))
    {
      SettlementRowsStep(xs, i, before);
      var block := SettlementBlock(xs[i]);
      r := AppendRows(r, block, before + SettlementRows(xs[..i]));
    }
    assert xs[..|xs|] == xs;
  }

  method SerializeSnapshot(s: SimulationSnapshot) returns (output: string)
    ensures output == Print(Rows(s))
  {
    var top := TopRows(s);
    output := AppendRows([], top, []);
    assert [] + top == top;
    output := AppendSettlements(output, s.settlements, top);
    output := AppendRows(output, MarketRows(s), top + SettlementRows(s.settlements));
  }

  // ---- printed rows survive the line and field scanners ----

  ghost predicate Clean(row: Row) {
    && row[0] != []
    && AllFree(row, TAB) && AllFree(row, LF) && AllFree(row, CR)
  }

  ghost predicate AllClean(rows: seq<Row>) { forall i :: 0 <= i < |rows| ==> Clean(rows[i]) }

  lemma CleanText(s: string, n: nat)
    ensures Free(Escape(s), TAB) && Free(Escape(s), LF) && Free(Escape(s), CR)
    ensures Free(Dec(n), TAB) && Free(Dec(n), LF) && Free(Dec(n), CR)
  {
    EscapeIsClean(s);
  }

  lemma HeadRowIsClean(x: SettlementReport)
    ensures Clean(HeadRow(x))
  {
    CleanText(x.id, x.population);
    CleanText(x.displayName, x.totalStoredResources);
  }

  lemma StorageRowIsClean(id: string, x: ResourceAmount)
    ensures Clean(StorageRow(id, x))
  {
    CleanText(id, x.amount);
    CleanText(x.resourceId, 0);
  }

  lemma BuildingRowIsClean(id: string, x: BuildingReport)
    ensures Clean(BuildingRow(id, x))
  {
    CleanText(id, x.assignedWorkers);
    CleanText(x.definitionId, x.workerSlots);
    CleanText(x.displayName, 0);
  }

  lemma SettlementBlockIsClean(x: SettlementReport)
    ensures AllClean(SettlementBlock(x))
  {
    HeadRowIsClean(x);
    forall i | 0 <= i < |x.storage| ensures Clean(StorageRows(x.id, x.storage)[i]) {
      StorageRowIsClean(x.id, x.storage[i]);
    }
    forall i | 0 <= i < |x.buildings| ensures Clean(BuildingRows(x.id, x.buildings)[i]) {
      BuildingRowIsClean(x.id, x.buildings[i]);
    }
  }

  lemma {:induction false} SettlementRowsAreClean(xs: seq<SettlementReport>)
    ensures AllClean(SettlementRows(xs))
  {
    if xs != [] {
      SettlementBlockIsClean(xs[0]);
      SettlementRowsAreClean(xs[1..]);
    }
  }

  lemma PriceRowIsClean(x: MarketPrice)
    ensures Clean(PriceRow(x))
  {
    CleanText(x.resourceId, x.baseValue);
    CleanText(x.reason, x.supply);
    CleanText([], x.demand);
    CleanText([], x.price);
  }

  lemma EventRowIsClean(x: SimulationEvent)
    ensures Clean(EventRow(x))
  {
    CleanText(x.kind, x.day);
    CleanText(x.message, 0);
  }

  lemma MarketRowsAreClean(s: SimulationSnapshot)
    ensures AllClean(MarketRows(s))
  {
    var m := s.market;
    forall i | 0 <= i < |m.prices| ensures Clean(PriceRows(m.prices)[i]) {
      PriceRowIsClean(m.prices[i]);
    }
    forall i | 0 <= i < |s.events| ensures Clean(EventRows(s.events)[i]) {
      EventRowIsClean(s.events[i]);
    }
  }

  lemma RowsAreClean(s: SimulationSnapshot)
    ensures AllClean(Rows(s))
  {
    CleanText([], s.day);
    assert Clean(HEADER) && Clean(["day", Dec(s.day)]);
    SettlementRowsAreClean(s.settlements);
    MarketRowsAreClean(s);
  }

  lemma {:induction false} JoinIsFree(row: Row, sep: char, c: char)
    requires AllFree(row, c) && sep != c
    ensures Free(Join(row, sep), c)
  {
    if |row| > 1 {
      JoinIsFree(row[1..], sep, c);
    }
  }

  lemma CleanRowScans(row: Row)
    requires Clean(row)
    ensures Free(Join(row, TAB), LF)
    ensures StripCr(Join(row, TAB)) == Join(row, TAB) != []
    ensures Split(Join(row, TAB), TAB) == row
  {
    JoinIsFree(row, TAB, LF);
    JoinIsFree(row, TAB, CR);
    SplitJoin(row, TAB);
  }

  // ---- reading ----

  datatype Load = Load(snapshot: SimulationSnapshot, headerSeen: bool, marketSeen: bool, errors: nat)

  const EMPTY_LOAD: Load :=
    Load(SimulationSnapshot(0, [], MarketReport([], 0, 0, 0, 0, 0), []), false, false, 0)

  // A number field, and the errors it reports; an unreadable number is read as 0.
  datatype Number<T> = Number(value: T, errors: nat)

  function Num64(field: string): Number<u64> {
    match ParseU64(field)
    case Some(n) => Number(n, 0)
    case None => Number(0, 1)
  }

  function Num32(field: string): Number<u32> {
    var n := Num64(field);
    if n.value > U32_MAX then Number(0, 1) else Number(n.value, n.errors)
  }

  // Position of the first settlement with this id, or the length when there is none.
  function FirstIndex(xs: seq<SettlementReport>, id: string): (i: nat)
    ensures i <= |xs|
    ensures forall j :: 0 <= j < i ==> xs[j].id != id
    ensures i < |xs| ==> xs[i].id == id
  {
    First(xs, (x: SettlementReport) => x.id == id)
  }

  function AddStorage(xs: seq<SettlementReport>, id: string, r: ResourceAmount): seq<SettlementReport>
    requires FirstIndex(xs, id) < |xs|
  {
    var i := FirstIndex(xs, id);
    xs[i := xs[i].(storage := xs[i].storage + [r])]
  }

  function AddBuilding(xs: seq<SettlementReport>, id: string, b: BuildingReport): seq<SettlementReport>
    requires FirstIndex(xs, id) < |xs|
  {
    var i := FirstIndex(xs, id);
    xs[i := xs[i].(buildings := xs[i].buildings + [b])]
  }

  function Fail(l: Load): Load { l.(errors := l.errors + 1) }

  function ReadSettlement(l: Load, f: Row): Load
    requires |f| == 5
  {
    var id, name, pop, total := Unescape(f[1]), Unescape(f[2]), Num64(f[3]), Num64(f[4]);
    var report := SettlementReport(id.text, name.text, pop.value, [], [], total.value);
    l.(snapshot := l.snapshot.(settlements := l.snapshot.settlements + [report]),
       errors := l.errors + id.errors + name.errors + pop.errors + total.errors)
  }

  function ReadStorage(l: Load, f: Row): Load
    requires |f| == 4
  {
    var id := Unescape(f[1]);
    var l := l.(errors := l.errors + id.errors);
    if FirstIndex(l.snapshot.settlements, id.text) == |l.snapshot.settlements| then Fail(l)
    else
      var res, amount := Unescape(f[2]), Num64(f[3]);
      l.(snapshot := l.snapshot.(settlements :=
           AddStorage(l.snapshot.settlements, id.text, ResourceAmount(res.text, amount.value))),
         errors := l.errors + res.errors + amount.errors)
  }

  function ReadBuilding(l: Load, f: Row): Load
    requires |f| == 6
  {
    var id := Unescape(f[1]);
    var l := l.(errors := l.errors + id.errors);
    if FirstIndex(l.snapshot.settlements, id.text) == |l.snapshot.settlements| then Fail(l)
    else
      var def, name, workers, slots := Unescape(f[2]), Unescape(f[3]), Num32(f[4]), Num32(f[5]);
      l.(snapshot := l.snapshot.(settlements :=
           AddBuilding(l.snapshot.settlements, id.text,
             BuildingReport(def.text, name.text, workers.value, slots.value))),
         errors := l.errors + def.errors + name.errors + workers.errors + slots.errors)
  }

  function ReadMarket(l: Load, f: Row): Load
    requires |f| == 6
  {
    var a, b, c, d, e := Num64(f[1]), Num64(f[2]), Num64(f[3]), Num64(f[4]), Num64(f[5]);
    var market := MarketReport(l.snapshot.market.prices, a.value, b.value, c.value, d.value, e.value);
    l.(snapshot := l.snapshot.(market := market), marketSeen := true,
       errors := l.errors + a.errors + b.errors + c.errors + d.errors + e.errors)
  }

  function ReadPrice(l: Load, f: Row): Load
    requires |f| == 7
  {
    var id, a, b, c, d, why :=
      Unescape(f[1]), Num64(f[2]), Num64(f[3]), Num64(f[4]), Num64(f[5]), Unescape(f[6]);
    var price := MarketPrice(id.text, a.value, b.value, c.value, d.value, why.text);
    l.(snapshot := l.snapshot.(market := l.snapshot.market.(prices := l.snapshot.market.prices + [price])),
       errors := l.errors + id.errors + a.errors + b.errors + c.errors + d.errors + why.errors)
  }

  function ReadEvent(l: Load, f: Row): Load
    requires |f| == 4
  {
    var day, kind, message := Num64(f[1]), Unescape(f[2]), Unescape(f[3]);
    l.(snapshot := l.snapshot.(events :=
         l.snapshot.events + [SimulationEvent(day.value, kind.text, message.text)]),
       errors := l.errors + day.errors + kind.errors + message.errors)
  }

  // What one non-empty row does to the result so far.
  function ReadRow(l: Load, f: Row): Load
  {
    if f[0] == "CLC_SIM_SNAPSHOT" then
      l.(headerSeen := true, errors := l.errors + if |f| != 2 || f[1] != "1" then 1 else 0)
    else if !l.headerSeen then Fail(l)
    else if f[0] == "day" then
      if |f| != 2 then Fail(l)
      else l.(snapshot := l.snapshot.(day := Num64(f[1]).value), errors := l.errors + Num64(f[1]).errors)
    else if f[0] == "settlement" then if |f| != 5 then Fail(l) else ReadSettlement(l, f)
    else if f[0] == "storage" then if |f| != 4 then Fail(l) else ReadStorage(l, f)
    else if f[0] == "building" then if |f| != 6 then Fail(l) else ReadBuilding(l, f)
    else if f[0] == "market" then if |f| != 6 then Fail(l) else ReadMarket(l, f)
    else if f[0] == "price" then if |f| != 7 then Fail(l) else ReadPrice(l, f)
    else if f[0] == "event" then if |f| != 4 then Fail(l) else ReadEvent(l, f)
    else Fail(l)
  }

  function ReadLine(l: Load, raw: string): Load {
    var line := StripCr(raw);
    if line == [] then l else ReadRow(l, Split(line, TAB))
  }

  function ReadLines(l: Load, lines: seq<string>): Load
    decreases |lines|
  {
    if lines == [] then l else ReadLines(ReadLine(l, lines[0]), lines[1..])
  }

  // The loaded snapshot, the number of errors, and the number of warnings.
  datatype LoadResult = LoadResult(snapshot: SimulationSnapshot, errors: nat, warnings: nat)

  function Finish(l: Load): LoadResult {
    LoadResult(l.snapshot, l.errors + (if l.headerSeen then 0 else 1), if l.marketSeen then 0 else 1)
  }

  function Deserialized(content: string): LoadResult {
    Finish(ReadLines(EMPTY_LOAD, Split(content, LF)))
  }

  method ReadLineInto(l: Load, raw: string) returns (r: Load)
    ensures r == ReadLine(l, raw)
  {
    r := l;
    var line := StripCr(raw);
    if line != [] {
      var fields := SplitTabLine(line);
      r := ReadRow(l, fields);
    }
  }

  method DeserializeSnapshot(content: string) returns (result: LoadResult)
    ensures result == Deserialized(content)
  {
    var l := EMPTY_LOAD;
    var lineStart := 0;
    ghost var rest := Split(content, LF);
    assert content[0..] == content;
    while lineStart <= |content|
      invariant lineStart <= |content|
      invariant rest == Split(content[lineStart..], LF)
      invariant ReadLines(l, rest) == ReadLines(EMPTY_LOAD, Split(content, LF))
    {
      var line, next := NextPiece(content, LF, lineStart);
      assert rest[0] == line;
      l := ReadLineInto(l, line);
      rest := rest[1..];
      if next == None { break; }
      lineStart := next.value;
    }
    result := Finish(l);
  }
}
