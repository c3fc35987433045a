// Resource storage: a map from resource ids to positive 64-bit amounts.
module Storage {
  import opened U64

  type Stock = map<string, u64>

  // What every storage built through its own operations satisfies.
  predicate Proper(s: Stock) {
    forall r <- s :: r != [] && s[r] > 0
  }

  function Amount(s: Stock, r: string): u64 {
    if r in s then s[r] else 0
  }

  predicate CanAdd(s: Stock, r: string, n: u64) {
    r != [] && n > 0 && Amount(s, r) + n <= U64_MAX
  }

  function Added(s: Stock, r: string, n: u64): Stock
    requires CanAdd(s, r, n)
  {
    s[r := Amount(s, r) + n]
  }

  predicate CanRemove(s: Stock, r: string, n: u64) {
    n > 0 && Amount(s, r) >= n
  }

  // An entry that reaches zero is dropped.
  function Removed(s: Stock, r: string, n: u64): Stock
    requires r in s && s[r] >= n
  {
    if s[r] == n then s - {r} else s[r := s[r] - n]
  }

  function RemovableUpTo(s: Stock, r: string, n: u64): u64 {
    Min(Amount(s, r), n)
  }

  function RemovedUpTo(s: Stock, r: string, n: u64): Stock {
    if n == 0 || r !in s then s else Removed(s, r, RemovableUpTo(s, r, n))
  }

  class ResourceStorage {
    var entries: Stock

    constructor ()
      ensures entries == map[]
    {
      entries := map[];
    }

    constructor Copy(other: ResourceStorage)
      ensures entries == other.entries
    {
      entries := other.entries;
    }

    method Add(r: string, n: u64) returns (errors: nat)
      modifies this
      ensures errors == if CanAdd(old(entries), r, n) then 0 else 1
      ensures entries == if CanAdd(old(entries), r, n) then Added(old(entries), r, n) else old(entries)
    {
      if r == [] { return 1; }
      if n == 0 { return 1; }
      if r in entries {
        if n > U64_MAX - entries[r] { return 1; }
        entries := entries[r := entries[r] + n];
        return 0;
      }
      entries := entries[r := n];
      return 0;
    }

    method TryRemove(r: string, n: u64) returns (ok: bool)
      modifies this
      ensures ok <==> CanRemove(old(entries), r, n)
      ensures entries == if CanRemove(old(entries), r, n) then Removed(old(entries), r, n) else old(entries)
    {
      if n == 0 { return false; }
      if r !in entries || entries[r] < n { return false; }
      var left := entries[r] - n;
      entries := if left == 0 then entries - {r} else entries[r := left];
      return true;
    }

    method RemoveUpTo(r: string, n: u64) returns (removed: u64)
      modifies this
      ensures removed == RemovableUpTo(old(entries), r, n)
      ensures entries == RemovedUpTo(old(entries), r, n)
    {
      if n == 0 { return 0; }
      if r !in entries { return 0; }
      removed := if entries[r] < n then entries[r] else n;
      var left := entries[r] - removed;
      entries := if left == 0 then entries - {r} else entries[r := left];
    }
  }

  // Moving goods works on copies that are committed only when both halves succeed.
  method Transfer(from: ResourceStorage, to: ResourceStorage, r: string, n: u64) returns (errors: nat)
    modifies from, to
    ensures errors <= 1
    ensures errors == 0 <==> r != [] && CanRemove(old(from.entries), r, n)
                             && (from == to || CanAdd(old(to.entries), r, n))
    ensures errors == 0 && from != to ==>
      from.entries == Removed(old(from.entries), r, n) && to.entries == Added(old(to.entries), r, n)
    ensures errors > 0 || from == to ==> from.entries == old(from.entries) && to.entries == old(to.entries)
  {
    if r == [] { return 1; }
    if n == 0 { return 1; }
    if from == to {
      return if Amount(from.entries, r) < n then 1 else 0;
    }
    var fromCopy := new ResourceStorage.Copy(from);
    var toCopy := new ResourceStorage.Copy(to);
    var removed := fromCopy.TryRemove(r, n);
    if !removed { return 1; }
    errors := toCopy.Add(r, n);
    if errors > 0 { return; }
    from.entries := fromCopy.entries;
    to.entries := toCopy.entries;
  }

  // ---- laws ----

  lemma AmountAfter(s: Stock, r: string, n: u64, q: string)
    ensures CanAdd(s, r, n) ==> Amount(Added(s, r, n), q) == Amount(s, q) + if q == r then n else 0
    ensures CanRemove(s, r, n) ==> Amount(Removed(s, r, n), q) == Amount(s, q) - if q == r then n else 0
    ensures Amount(RemovedUpTo(s, r, n), q) == Amount(s, q) - if q == r then RemovableUpTo(s, r, n) else 0
  {
  }

  lemma StaysProper(s: Stock, r: string, n: u64)
    requires Proper(s)
    ensures CanAdd(s, r, n) ==> Proper(Added(s, r, n))
    ensures CanRemove(s, r, n) ==> Proper(Removed(s, r, n))
    ensures Proper(RemovedUpTo(s, r, n))
  {
  }

  // Removing what was just added leaves no trace, and the other way round.
  lemma AddThenRemove(s: Stock, r: string, n: u64)
    requires Proper(s)
    ensures CanAdd(s, r, n) ==> CanRemove(Added(s, r, n), r, n) && Removed(Added(s, r, n), r, n) == s
    ensures CanRemove(s, r, n) ==> r != [] && CanAdd(Removed(s, r, n), r, n) && Added(Removed(s, r, n), r, n) == s
  {
  }

  // ---- total stock ----

  ghost function Total(s: Stock): nat {
    if s == map[] then 0
    else
      var r :| r in s;
      s[r] + Total(s - {r})
  }

  lemma {:induction false} TotalWithout(s: Stock, r: string)
    requires r in s
    ensures Total(s) == s[r] + Total(s - {r})
    decreases s
  {
    var q :| q in s && Total(s) == s[q] + Total(s - {q});
    if q != r {
      TotalWithout(s - {q}, r);
      TotalWithout(s - {r}, q);
      assert s - {q} - {r} == s - {r} - {q};
    }
  }

  lemma TotalUpdated(s: Stock, r: string, n: u64)
    ensures Total(s[r := n]) == Total(s) - Amount(s, r) + n
  {
    TotalWithout(s[r := n], r);
    if r in s {
      TotalWithout(s, r);
      assert s[r := n] - {r} == s - {r};
    } else {
      assert s[r := n] - {r} == s;
    }
  }

  lemma TotalAfter(s: Stock, r: string, n: u64)
    ensures CanAdd(s, r, n) ==> Total(Added(s, r, n)) == Total(s) + n
    ensures CanRemove(s, r, n) ==> Total(Removed(s, r, n)) == Total(s) - n
    ensures Total(RemovedUpTo(s, r, n)) == Total(s) - RemovableUpTo(s, r, n)
  {
    if CanAdd(s, r, n) { TotalUpdated(s, r, Amount(s, r) + n); }
    if r in s {
      TotalWithout(s, r);
      if s[r] >= n { TotalUpdated(s, r, s[r] - n); }
      if s[r] > RemovableUpTo(s, r, n) { TotalUpdated(s, r, s[r] - RemovableUpTo(s, r, n)); }
    }
  }

  // ---- several storages together ----

  function HeldIn(stocks: seq<Stock>, r: string): nat {
    if stocks == [] then 0 else HeldIn(stocks[..|stocks| - 1], r) + Amount(stocks[|stocks| - 1], r)
  }

  lemma {:induction false} HeldInUpdated(stocks: seq<Stock>, i: nat, stock: Stock, r: string)
    requires i < |stocks|
    ensures HeldIn(stocks[i := stock], r) == HeldIn(stocks, r) - Amount(stocks[i], r) + Amount(stock, r)
  {
    var n := |stocks| - 1;
    if i < n {
      HeldInUpdated(stocks[..n], i, stock, r);
      assert stocks[i := stock][..n] == stocks[..n][i := stock];
    } else {
      assert stocks[i := stock][..n] == stocks[..n];
    }
  }
}
