// The sequenced economy ledger: recording, restoring, totals and the indexed summary.
module Ledger {
  import opened U64
  import opened Sorting

  datatype EntryType = Buy | Sell | ContractReward

  datatype Entry = Entry(
    sequence: u64, kind: EntryType, resourceId: string, quantity: u64, unitPrice: u64, totalPrice: u64,
    referenceId: string, note: string)

  datatype TradeResult = TradeResult(ok: bool, resourceId: string, quantity: u64, unitPrice: u64, totalPrice: u64)

  // A ledger as a value.
  datatype Book = Book(entries: seq<Entry>, next: u64)

  const EMPTY_BOOK := Book([], 1)

  predicate CanRecord(b: Book, kind: EntryType, t: TradeResult) {
    && kind != ContractReward
    && t.ok && t.resourceId != [] && t.quantity != 0 && t.unitPrice != 0 && t.totalPrice != 0
    && b.next != U64_MAX
  }

  predicate CanReward(b: Book, contract: string, resource: string, quantity: u64, coins: u64) {
    contract != [] && resource != [] && quantity != 0 && coins != 0 && b.next != U64_MAX
  }

  function Append(b: Book, e: Entry): Book
    requires b.next != U64_MAX
  {
    Book(b.entries + [e.(sequence := b.next)], b.next + 1)
  }

  function TradeEntry(kind: EntryType, t: TradeResult, note: string): Entry {
    Entry(0, kind, t.resourceId, t.quantity, t.unitPrice, t.totalPrice, "", note)
  }

  function RewardEntry(contract: string, resource: string, quantity: u64, coins: u64, note: string): Entry {
    Entry(0, ContractReward, resource, quantity, 0, coins, contract, note)
  }

  predicate ValidPayload(e: Entry) {
    && e.sequence != 0 && e.resourceId != [] && e.quantity != 0 && e.totalPrice != 0
    && (if e.kind == ContractReward then e.unitPrice == 0 && e.referenceId != []
        else e.unitPrice > 0 && e.referenceId == [])
  }

  // The sequence expected at position i; the counter stops at its maximum.
  function ExpectedSequence(i: nat): u64 { Min(i + 1, U64_MAX) }

  predicate Restorable(entries: seq<Entry>) {
    forall i :: 0 <= i < |entries| ==> ValidPayload(entries[i]) && entries[i].sequence == ExpectedSequence(i)
  }

  // Every ledger reached by recording: sequences run 1, 2, ..., n and n + 1 comes next.
  predicate Sequenced(b: Book) {
    && b.next == |b.entries| + 1
    && forall i :: 0 <= i < |b.entries| ==> ValidPayload(b.entries[i]) && b.entries[i].sequence == i + 1
  }

  // ---- sums ----

  function Quantity(entries: seq<Entry>, kind: EntryType, r: string): nat {
    if entries == [] then 0
    else
      var e := entries[|entries| - 1];
      Quantity(entries[..|entries| - 1], kind, r) + if e.kind == kind && e.resourceId == r then e.quantity else 0
  }

  function Value(entries: seq<Entry>, kind: EntryType, r: string): nat {
    if entries == [] then 0
    else
      var e := entries[|entries| - 1];
      Value(entries[..|entries| - 1], kind, r) + if e.kind == kind && e.resourceId == r then e.totalPrice else 0
  }

  function Turnover(entries: seq<Entry>, kind: EntryType): nat {
    if entries == [] then 0
    else
      var e := entries[|entries| - 1];
      Turnover(entries[..|entries| - 1], kind) + if e.kind == kind then e.totalPrice else 0
  }

  function CountKind(entries: seq<Entry>, kind: EntryType): nat {
    if entries == [] then 0
    else CountKind(entries[..|entries| - 1], kind) + if entries[|entries| - 1].kind == kind then 1 else 0
  }

  lemma SumsStep(entries: seq<Entry>, i: nat, kind: EntryType, r: string)
    requires i < |entries|
    ensures var e := entries[i];
            && Quantity(entries[..i + 1], kind, r) == Quantity(entries[..i], kind, r)
               + (if e.kind == kind && e.resourceId == r then e.quantity else 0)
            && Value(entries[..i + 1], kind, r) == Value(entries[..i], kind, r)
               + (if e.kind == kind && e.resourceId == r then e.totalPrice else 0)
            && Turnover(entries[..i + 1], kind) == Turnover(entries[..i], kind)
               + (if e.kind == kind then e.totalPrice else 0)
            && CountKind(entries[..i + 1], kind) == CountKind(entries[..i], kind) + (if e.kind == kind then 1 else 0)
  {
    assert entries[..i + 1][..i] == entries[..i];
  }

  // ---- the ledger object ----

  class EconomyLedger {
    var entries: seq<Entry>
    var nextSequence: u64

    constructor ()
      ensures View() == EMPTY_BOOK
    {
      entries, nextSequence := [], 1;
    }

    constructor Copy(other: EconomyLedger)
      ensures View() == other.View()
    {
      entries, nextSequence := other.entries, other.nextSequence;
    }

    function View(): Book
      reads this
    {
      Book(entries, nextSequence)
    }

    method Record(kind: EntryType, t: TradeResult, note: string) returns (ok: bool)
      modifies this
      ensures ok <==> CanRecord(old(View()), kind, t)
      ensures View() == if ok then Append(old(View()), TradeEntry(kind, t, note)) else old(View())
    {
      if kind == ContractReward { return false; }
      if !t.ok || t.resourceId == [] || t.quantity == 0 || t.unitPrice == 0 || t.totalPrice == 0 { return false; }
      if nextSequence == U64_MAX { return false; }
      entries := entries + [Entry(nextSequence, kind, t.resourceId, t.quantity, t.unitPrice, t.totalPrice, "", note)];
      nextSequence := nextSequence + 1;
      return true;
    }

    method RecordContractReward(contract: string, resource: string, quantity: u64, coins: u64, note: string)
      returns (ok: bool)
      modifies this
      ensures ok <==> CanReward(old(View()), contract, resource, quantity, coins)
      ensures View()
              == if ok then Append(old(View()), RewardEntry(contract, resource, quantity, coins, note)) else old(View())
    {
      if contract == [] || resource == [] || quantity == 0 || coins == 0 { return false; }
      if nextSequence == U64_MAX { return false; }
      entries := entries + [Entry(nextSequence, ContractReward, resource, quantity, 0, coins, contract, note)];
      nextSequence := nextSequence + 1;
      return true;
    }

    method RestoreEntries(replacement: seq<Entry>) returns (errors: nat)
      modifies this
      ensures errors == 0 <==> Restorable(replacement)
      ensures View() == if errors == 0 then Book(replacement, ExpectedSequence(|replacement|)) else old(View())
    {
      errors := 0;
      var expected: u64 := 1;
      for i := 0 to |replacement|
        invariant expected == ExpectedSequence(i)
        invariant errors == 0 <==> Restorable(replacement[..i])
      {
        var e := replacement[i];
        ghost var before, after := replacement[..i], replacement[..i + 1];
        assert after[i] == e && forall k :: 0 <= k < i ==> after[k] == before[k];
        if !ValidPayload(e) { errors := errors + 1; }
        if e.sequence != expected { errors := errors + 1; }
        if expected != U64_MAX { expected := expected + 1; }
      }
      assert replacement[..|replacement|] == replacement;
      if errors > 0 { return; }
      entries := replacement;
      nextSequence := expected;
    }

    method TotalQuantity(kind: EntryType, r: string) returns (total: u64)
      ensures total == Min(Quantity(entries, kind, r), U64_MAX)
    {
      total := 0;
      for i := 0 to |entries|
        invariant total == Min(Quantity(entries[..i], kind, r), U64_MAX)
      {
        SumsStep(entries, i, kind, r);
        if entries[i].kind == kind && entries[i].resourceId == r { total := SatAdd(total, entries[i].quantity); }
      }
      assert entries[..|entries|] == entries;
    }

    method TotalBought(r: string) returns (total: u64)
      ensures total == Min(Quantity(entries, Buy, r), U64_MAX)
    {
      total := TotalQuantity(Buy, r);
    }

    method TotalSold(r: string) returns (total: u64)
      ensures total == Min(Quantity(entries, Sell, r), U64_MAX)
    {
      total := TotalQuantity(Sell, r);
    }

    method TotalContractRewards(r: string) returns (total: u64)
      ensures total == Min(Value(entries, ContractReward, r), U64_MAX)
    {
      total := 0;
      for i := 0 to |entries|
        invariant total == Min(Value(entries[..i], ContractReward, r), U64_MAX)
      {
        SumsStep(entries, i, ContractReward, r);
        if entries[i].kind == ContractReward && entries[i].resourceId == r {
          total := SatAdd(total, entries[i].totalPrice);
        }
      }
      assert entries[..|entries|] == entries;
    }
  }

  // ---- recording and restoring ----

  lemma RecordingKeepsSequence(b: Book, e: Entry)
    requires Sequenced(b) && b.next != U64_MAX && ValidPayload(e.(sequence := b.next))
    ensures Sequenced(Append(b, e))
  {
  }

  // Whatever was recorded can be restored, and restores to the same ledger.
  lemma SequencedRestores(b: Book)
    requires Sequenced(b)
    ensures Restorable(b.entries) && Book(b.entries, ExpectedSequence(|b.entries|)) == b
  {
  }

  // Conversely, short of the end of the counter, only such ledgers are accepted.
  lemma RestoredIsSequenced(entries: seq<Entry>)
    requires Restorable(entries)
    ensures Sequenced(Book(entries, ExpectedSequence(|entries|))) <==> |entries| < U64_MAX
  {
    if |entries| == U64_MAX { assert ExpectedSequence(|entries|) == U64_MAX; }
  }

  // ---- the summary ----

  datatype ResourceSummary = ResourceSummary(
    resourceId: string, bought: u64, sold: u64, rewarded: u64,
    buyValue: u64, sellValue: u64, rewardValue: u64, netQuantity: int, netValue: int)

  datatype Summary = Summary(
    entryCount: nat, buyCount: nat, sellCount: nat, rewardCount: nat,
    buyValue: u64, sellValue: u64, rewardValue: u64, resources: seq<ResourceSummary>)

  // A 64-bit signed difference that saturates at both ends.
  function SignedDifference(positive: u64, negative: u64): (d: int)
    ensures d == Max(-I64_MAX - 1, Min(positive - negative, I64_MAX))
  {
    if positive >= negative then
      if positive - negative > I64_MAX then I64_MAX else positive - negative
    else if negative - positive > I64_MAX then -I64_MAX - 1
    else -(negative - positive)
  }

  function Sat(n: nat): u64 { Min(n, U64_MAX) }

  // What the scans over the ledger say about one resource.
  function Scanned(entries: seq<Entry>, r: string): ResourceSummary {
    ResourceSummary(r, Sat(Quantity(entries, Buy, r)), Sat(Quantity(entries, Sell, r)),
                    Sat(Quantity(entries, ContractReward, r)),
                    Sat(Value(entries, Buy, r)), Sat(Value(entries, Sell, r)),
                    Sat(Value(entries, ContractReward, r)), 0, 0)
  }

  function WithNet(s: ResourceSummary): ResourceSummary {
    s.(netQuantity := SignedDifference(SatAdd(s.sold, s.rewarded), s.bought),
       netValue := SignedDifference(SatAdd(s.sellValue, s.rewardValue), s.buyValue))
  }

  predicate Mentions(entries: seq<Entry>, r: string) {
    exists i :: 0 <= i < |entries| && entries[i].resourceId == r
  }

  const ID: ResourceSummary -> string := (s: ResourceSummary) => s.resourceId

  predicate ById(a: ResourceSummary, b: ResourceSummary) { StrLe(a.resourceId, b.resourceId) }

  // One row per mentioned resource, each as the scans have it.
  ghost predicate RowsFor(rows: seq<ResourceSummary>, entries: seq<Entry>) {
    && DistinctKeys(ID, rows)
    && (forall k :: 0 <= k < |rows| ==>
          Mentions(entries, rows[k].resourceId) && rows[k] == Scanned(entries, rows[k].resourceId))
    && (forall r :: Mentions(entries, r) ==> exists k :: 0 <= k < |rows| && rows[k].resourceId == r)
  }

  ghost predicate Indexed(index: map<string, nat>, rows: seq<ResourceSummary>) {
    && (forall r <- index :: index[r] < |rows| && rows[index[r]].resourceId == r)
    && (forall k :: 0 <= k < |rows| ==> rows[k].resourceId in index && index[rows[k].resourceId] == k)
  }

  // One entry folded into the row of its resource.
  function Post(row: ResourceSummary, e: Entry): ResourceSummary {
    match e.kind
    case Buy => row.(bought := SatAdd(row.bought, e.quantity), buyValue := SatAdd(row.buyValue, e.totalPrice))
    case Sell => row.(sold := SatAdd(row.sold, e.quantity), sellValue := SatAdd(row.sellValue, e.totalPrice))
    case ContractReward =>
      row.(rewarded := SatAdd(row.rewarded, e.quantity), rewardValue := SatAdd(row.rewardValue, e.totalPrice))
  }

  lemma ScannedStep(entries: seq<Entry>, i: nat, r: string)
    requires i < |entries|
    ensures Scanned(entries[..i + 1], r)
            == if entries[i].resourceId == r then Post(Scanned(entries[..i], r), entries[i])
               else Scanned(entries[..i], r)
  {
    SumsStep(entries, i, Buy, r);
    SumsStep(entries, i, Sell, r);
    SumsStep(entries, i, ContractReward, r);
  }

  const BLANK: ResourceSummary := ResourceSummary("", 0, 0, 0, 0, 0, 0, 0, 0)

  lemma {:induction false} UnmentionedIsBlank(entries: seq<Entry>, r: string)
    requires !Mentions(entries, r)
    ensures Scanned(entries, r) == BLANK.(resourceId := r)
  {
    if entries != [] {
      var n := |entries| - 1;
      assert entries[n].resourceId != r;
      UnmentionedIsBlank(entries[..n], r);
      assert entries[..n + 1] == entries;
      ScannedStep(entries, n, r);
    }
  }

  lemma MentionsStep(entries: seq<Entry>, i: nat, r: string)
    requires i < |entries|
    ensures Mentions(entries[..i + 1], r) <==> Mentions(entries[..i], r) || entries[i].resourceId == r
  {
    var a, b := entries[..i], entries[..i + 1];
    assert b[i] == entries[i] && forall k :: 0 <= k < i ==> a[k] == b[k];
  }

  lemma IndexKnowsMentions(rows: seq<ResourceSummary>, index: map<string, nat>, r: string, seen: seq<Entry>)
    requires RowsFor(rows, seen) && Indexed(index, rows)
    ensures r in index <==> Mentions(seen, r)
  {
    if r in index { assert Mentions(seen, rows[index[r]].resourceId); }
    if Mentions(seen, r) {
      var k :| 0 <= k < |rows| && rows[k].resourceId == r;
      assert rows[k].resourceId in index;
    }
  }

  function WithRow(rows: seq<ResourceSummary>, r: string, seen: seq<Entry>): seq<ResourceSummary> {
    if Mentions(seen, r) then rows else rows + [BLANK.(resourceId := r)]
  }

  // The row for a resource, appended blank when it is first seen.
  method ResourceSummaryFor(rows: seq<ResourceSummary>, index: map<string, nat>, r: string, ghost seen: seq<Entry>)
    returns (rows': seq<ResourceSummary>, index': map<string, nat>)
    requires RowsFor(rows, seen) && Indexed(index, rows)
    ensures Indexed(index', rows') && r in index'
    ensures rows' == WithRow(rows, r, seen)
  {
    IndexKnowsMentions(rows, index, r, seen);
    if r in index { return rows, index; }
    return rows + [BLANK.(resourceId := r)], index[r := |rows|];
  }

  lemma WithRowDistinct(rows: seq<ResourceSummary>, r: string, seen: seq<Entry>)
    requires RowsFor(rows, seen)
    ensures DistinctKeys(ID, WithRow(rows, r, seen))
  {
    var all := WithRow(rows, r, seen);
    forall m, n | 0 <= m < n < |all| ensures ID(all[m]) != ID(all[n]) {
      if n < |rows| { assert ID(rows[m]) != ID(rows[n]); } else { assert Mentions(seen, rows[m].resourceId); }
    }
  }

  lemma PostedRow(rows: seq<ResourceSummary>, entries: seq<Entry>, i: nat, m: nat)
    requires i < |entries| && RowsFor(rows, entries[..i])
    requires m < |WithRow(rows, entries[i].resourceId, entries[..i])|
    ensures var row := WithRow(rows, entries[i].resourceId, entries[..i])[m];
            Mentions(entries[..i + 1], row.resourceId)
            && Scanned(entries[..i + 1], row.resourceId)
               == if row.resourceId == entries[i].resourceId then Post(row, entries[i]) else row
  {
    var r := entries[i].resourceId;
    var row := WithRow(rows, r, entries[..i])[m];
    ScannedStep(entries, i, row.resourceId);
    MentionsStep(entries, i, row.resourceId);
    if m == |rows| { UnmentionedIsBlank(entries[..i], r); }
  }

  // Posting entry i keeps the rows equal to the scans of the entries so far.
  lemma PostKeepsRows(rows: seq<ResourceSummary>, entries: seq<Entry>, i: nat, all: seq<ResourceSummary>, k: nat)
    requires i < |entries| && RowsFor(rows, entries[..i])
    requires all == WithRow(rows, entries[i].resourceId, entries[..i])
    requires k < |all| && all[k].resourceId == entries[i].resourceId
    ensures RowsFor(all[k := Post(all[k], entries[i])], entries[..i + 1])
  {
    var r, posted := entries[i].resourceId, all[k := Post(all[k], entries[i])];
    WithRowDistinct(rows, r, entries[..i]);
    forall m | 0 <= m < |all|
      ensures Mentions(entries[..i + 1], posted[m].resourceId)
      ensures posted[m] == Scanned(entries[..i + 1], posted[m].resourceId)
    {
      PostedRow(rows, entries, i, m);
      if m != k { assert ID(all[m]) != ID(all[k]); }
    }
    forall m, n | 0 <= m < n < |posted| ensures ID(posted[m]) != ID(posted[n]) {
      assert ID(all[m]) != ID(all[n]);
    }
    var after := entries[..i + 1];
    forall q | Mentions(after, q) ensures exists m :: 0 <= m < |posted| && posted[m].resourceId == q {
      MentionsStep(entries, i, q);
      if q == r {
        assert posted[k].resourceId == q;
      } else {
        var m :| 0 <= m < |rows| && rows[m].resourceId == q;
        assert posted[m].resourceId == q;
      }
    }
  }

  lemma PostKeepsIndex(rows: seq<ResourceSummary>, index: map<string, nat>, k: nat, e: Entry)
    requires Indexed(index, rows) && k < |rows|
    ensures Indexed(index, rows[k := Post(rows[k], e)])
  {
  }

  method PostEntry(rows: seq<ResourceSummary>, index: map<string, nat>, e: Entry, ghost entries: seq<Entry>,
                   ghost i: nat)
    returns (rows': seq<ResourceSummary>, index': map<string, nat>)
    requires i < |entries| && e == entries[i] && RowsFor(rows, entries[..i]) && Indexed(index, rows)
    ensures RowsFor(rows', entries[..i + 1])
    ensures Indexed(index', rows')
  {
    hide RowsFor, WithRow, Post;
    rows', index' := ResourceSummaryFor(rows, index, e.resourceId, entries[..i]);
    var k := index'[e.resourceId];
    PostKeepsRows(rows, entries, i, rows', k);
    PostKeepsIndex(rows', index', k, e);
    hide Indexed;
    rows' := rows'[k := Post(rows'[k], e)];
  }

  ghost predicate Counted(s: Summary, entries: seq<Entry>) {
    && s.entryCount == |entries|
    && s.buyCount == CountKind(entries, Buy) && s.buyValue == Sat(Turnover(entries, Buy))
    && s.sellCount == CountKind(entries, Sell) && s.sellValue == Sat(Turnover(entries, Sell))
    && s.rewardCount == CountKind(entries, ContractReward) && s.rewardValue == Sat(Turnover(entries, ContractReward))
  }

  function CountEntry(s: Summary, e: Entry): Summary {
    var s := s.(entryCount := s.entryCount + 1);
    match e.kind
    case Buy => s.(buyCount := s.buyCount + 1, buyValue := SatAdd(s.buyValue, e.totalPrice))
    case Sell => s.(sellCount := s.sellCount + 1, sellValue := SatAdd(s.sellValue, e.totalPrice))
    case ContractReward => s.(rewardCount := s.rewardCount + 1, rewardValue := SatAdd(s.rewardValue, e.totalPrice))
  }

  lemma CountedStep(s: Summary, entries: seq<Entry>, i: nat)
    requires i < |entries| && Counted(s, entries[..i])
    ensures Counted(CountEntry(s, entries[i]), entries[..i + 1])
  {
    SumsStep(entries, i, Buy, "");
    SumsStep(entries, i, Sell, "");
    SumsStep(entries, i, ContractReward, "");
  }

  // The finished table: the scans with their net figures, strictly ordered by resource.
  ghost predicate SummaryTable(rows: seq<ResourceSummary>, entries: seq<Entry>) {
    && DistinctKeys(ID, rows) && SortedBy(ById, rows)
    && (forall k :: 0 <= k < |rows| ==> Mentions(entries, rows[k].resourceId))
    && (forall k :: 0 <= k < |rows| ==> rows[k] == WithNet(Scanned(entries, rows[k].resourceId)))
    && (forall r :: Mentions(entries, r) ==> exists k :: 0 <= k < |rows| && rows[k].resourceId == r)
  }

  lemma FinishTable(rows: seq<ResourceSummary>, netted: seq<ResourceSummary>, sorted: seq<ResourceSummary>,
                    entries: seq<Entry>)
    requires RowsFor(rows, entries) && |netted| == |rows|
    requires forall k :: 0 <= k < |rows| ==> netted[k] == WithNet(rows[k])
    requires multiset(sorted) == multiset(netted) && SortedBy(ById, sorted)
    ensures SummaryTable(sorted, entries)
  {
    forall m, n | 0 <= m < n < |netted| ensures ID(netted[m]) != ID(netted[n]) {
      assert ID(rows[m]) != ID(rows[n]);
    }
    PermutedKeysDistinct(ID, netted, sorted);
    SameMembers(netted, sorted);
    forall k | 0 <= k < |sorted|
      ensures Mentions(entries, sorted[k].resourceId) && sorted[k] == WithNet(Scanned(entries, sorted[k].resourceId))
    {
      assert sorted[k] in netted;
      var m :| 0 <= m < |netted| && netted[m] == sorted[k];
      assert rows[m] == Scanned(entries, rows[m].resourceId);
    }
    forall r | Mentions(entries, r) ensures exists k :: 0 <= k < |sorted| && sorted[k].resourceId == r {
      var m :| 0 <= m < |rows| && rows[m].resourceId == r;
      assert netted[m] in sorted;
    }
  }

  method TabulateEntries(entries: seq<Entry>) returns (summary: Summary, rows: seq<ResourceSummary>)
    ensures Counted(summary, entries) && RowsFor(rows, entries)
  {
    summary := Summary(0, 0, 0, 0, 0, 0, 0, []);
    rows := [];
    var index: map<string, nat> := map[];
    for i := 0 to |entries|
      invariant Counted(summary, entries[..i])
      invariant RowsFor(rows, entries[..i])
      invariant Indexed(index, rows)
    {
      var e := entries[i];
      CountedStep(summary, entries, i);
      summary := CountEntry(summary, e);
      rows, index := PostEntry(rows, index, e, entries, i);
    }
    assert entries[..|entries|] == entries;
  }

  method MakeLedgerSummary(ledger: EconomyLedger) returns (summary: Summary)
    ensures Counted(summary, ledger.entries) && SummaryTable(summary.resources, ledger.entries)
  {
    var rows;
    summary, rows := TabulateEntries(ledger.entries);
    var netted := rows;
    for k := 0 to |rows|
      invariant |netted| == |rows|
      invariant forall m :: 0 <= m < |rows| ==> netted[m] == if m < k then WithNet(rows[m]) else rows[m]
    {
      netted := netted[k := WithNet(netted[k])];
    }
    KeyedOrderIsTotal(ID, ById);
    var sorted := Sort(ById, netted);
    FinishTable(rows, netted, sorted, ledger.entries);
    summary := summary.(resources := sorted);
  }

  // Strictly ascending, since equal neighbours would be the same key.
  lemma TableIsStrict(rows: seq<ResourceSummary>, entries: seq<Entry>, i: nat, j: nat)
    requires SummaryTable(rows, entries) && i < j < |rows|
    ensures StrLess(rows[i].resourceId, rows[j].resourceId)
  {
    assert ID(rows[i]) != ID(rows[j]) && ById(rows[i], rows[j]);
    if StrLe(rows[j].resourceId, rows[i].resourceId) {
      StrLeAntisymmetric(rows[i].resourceId, rows[j].resourceId);
    }
  }
}
