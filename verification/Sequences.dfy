// Sequence numbers of audits and logs: summaries and validation.
module Sequences {
  import opened U64
  import opened Dispatch

  predicate Contiguous(s: seq<u64>) { forall i :: 0 < i < |s| ==> s[i] == WrapAdd(s[i - 1], 1) }

  predicate Increasing(s: seq<u64>) { forall i :: 0 < i < |s| ==> s[i - 1] < s[i] }

  predicate Consecutive(s: seq<u64>, first: u64) { forall i :: 0 <= i < |s| ==> s[i] == first + i }

  function Numbers(records: seq<Audit>): (s: seq<u64>)
    ensures |s| == |records| && forall i :: 0 <= i < |s| ==> s[i] == records[i].sequence
  {
    seq(|records|, i requires 0 <= i < |records| => records[i].sequence)
  }

  function AcceptedCount(records: seq<Audit>): nat {
    if records == [] then 0
    else AcceptedCount(records[..|records| - 1]) + if records[|records| - 1].accepted then 1 else 0
  }

  datatype Summary = Summary(
    count: nat, accepted: nat, rejected: nat, first: u64, last: u64, contiguous: bool, increasing: bool)

  method Summarize(records: seq<Audit>) returns (s: Summary)
    ensures s.count == |records| && s.accepted == AcceptedCount(records) && s.accepted + s.rejected == s.count
    ensures if records == [] then s.first == s.last == 0
            else s.first == records[0].sequence && s.last == records[|records| - 1].sequence
    ensures s.contiguous == Contiguous(Numbers(records)) && s.increasing == Increasing(Numbers(records))
  {
    hide WrapAdd, Contiguous, Increasing, AcceptedCount;
    if records == [] {
      NothingToSummarize();
      return Summary(0, 0, 0, 0, 0, true, true);
    }
    ghost var ns := Numbers(records);
    var accepted, rejected, contiguous, increasing := 0, 0, true, true;
    NothingToSummarize();
    for i := 0 to |records|
      invariant accepted == AcceptedCount(records[..i]) && accepted + rejected == i
      invariant contiguous == Contiguous(ns[..i]) && increasing == Increasing(ns[..i])
    {
      OneMoreRecord(records, ns, i);
      if records[i].accepted { accepted := accepted + 1; } else { rejected := rejected + 1; }
      if i > 0 {
        var previous := records[i - 1].sequence;
        if records[i].sequence <= previous { increasing := false; }
        if records[i].sequence != WrapAdd(previous, 1) { contiguous := false; }
      }
    }
    assert records[..|records|] == records && ns[..|ns|] == ns;
    s := Summary(|records|, accepted, rejected, records[0].sequence, records[|records| - 1].sequence, contiguous,
                 increasing);
  }

  lemma NothingToSummarize()
    ensures AcceptedCount([]) == 0 && Contiguous([]) && Increasing([]) && Numbers([]) == []
  {
  }

  lemma OneMoreRecord(records: seq<Audit>, ns: seq<u64>, i: nat)
    requires ns == Numbers(records) && i < |records|
    ensures AcceptedCount(records[..i + 1]) == AcceptedCount(records[..i]) + if records[i].accepted then 1 else 0
    ensures Contiguous(ns[..i + 1]) == (Contiguous(ns[..i]) && (i == 0 || ns[i] == WrapAdd(ns[i - 1], 1)))
    ensures Increasing(ns[..i + 1]) == (Increasing(ns[..i]) && (i == 0 || ns[i - 1] < ns[i]))
  {
    hide WrapAdd;
    assert records[..i + 1][..i] == records[..i];
    assert ns[..i + 1] == ns[..i] + [ns[i]];
  }

  // An order error hides a gap at the same place.
  method CheckStep(previous: u64, current: u64) returns (errors: nat)
    ensures errors == 0 <==> previous < current && current == WrapAdd(previous, 1)
  {
    if current <= previous { return 1; }
    if current != WrapAdd(previous, 1) { return 1; }
    return 0;
  }

  method ValidateSequence(records: seq<Audit>, expected: u64) returns (errors: nat)
    ensures errors == 0 <==> Consecutive(Numbers(records), expected)
  {
    hide WrapAdd;
    if records == [] { return 0; }
    errors := if records[0].sequence != expected then 1 else 0;
    for i := 1 to |records|
      invariant errors == 0 <==> records[0].sequence == expected && forall k :: 0 < k < i ==>
        records[k - 1].sequence < records[k].sequence && records[k].sequence == WrapAdd(records[k - 1].sequence, 1)
    {
      var step := CheckStep(records[i - 1].sequence, records[i].sequence);
      errors := errors + step;
    }
    ConsecutiveExactly(Numbers(records), expected);
  }

  // The check that a validation makes and the flags that a summary shows agree, and both mean that
  // the numbers count up from the expected one without ever wrapping around.
  lemma ConsecutiveExactly(s: seq<u64>, first: u64)
    requires s != []
    ensures Consecutive(s, first) <==> s[0] == first && Contiguous(s) && Increasing(s)
  {
    hide WrapAdd;
    if s[0] == first && Contiguous(s) && Increasing(s) {
      ConsecutiveUpTo(s, first, |s| - 1);
    }
    if Consecutive(s, first) {
      forall i | 0 < i < |s| ensures s[i - 1] < s[i] && s[i] == WrapAdd(s[i - 1], 1) { NextNumber(s[i - 1], s[i]); }
    }
  }

  lemma NextNumber(a: u64, b: u64)
    ensures a < b && b == WrapAdd(a, 1) <==> b == a + 1
  {
    if a == U64_MAX { assert WrapAdd(a, 1) == 0; }
  }

  lemma {:induction false} ConsecutiveUpTo(s: seq<u64>, first: u64, n: nat)
    requires n < |s| && s[0] == first && Contiguous(s) && Increasing(s)
    ensures forall i :: 0 <= i <= n ==> s[i] == first + i
  {
    if n > 0 {
      ConsecutiveUpTo(s, first, n - 1);
      NextNumber(s[n - 1], s[n]);
    }
  }

  // Contiguous numbers count up modulo 2^64.
  lemma {:induction false} ContiguousIsModular(s: seq<u64>, i: nat)
    requires i < |s| && Contiguous(s)
    ensures s[i] == (s[0] + i) % (U64_MAX + 1)
  {
    hide WrapAdd;
    if i > 0 {
      ContiguousIsModular(s, i - 1);
      WrapAddIsModular(s[0] + (i - 1), 1);
    }
  }

  // So they increase if and only if they end before the counter does.
  lemma ContiguousIncreasesExactly(s: seq<u64>)
    requires s != [] && Contiguous(s)
    ensures Increasing(s) <==> s[0] + |s| - 1 <= U64_MAX
  {
    hide Contiguous;
    if Increasing(s) {
      ConsecutiveUpTo(s, s[0], |s| - 1);
      assert s[|s| - 1] == s[0] + (|s| - 1);
    } else if s[0] + |s| - 1 <= U64_MAX {
      forall i | 0 <= i < |s| ensures s[i] == s[0] + i { ContiguousIsModular(s, i); }
    }
  }

  // Contiguity alone admits the step from the largest number back to zero.
  lemma WrapIsContiguousButNotIncreasing()
    ensures Contiguous([U64_MAX, 0]) && !Increasing([U64_MAX, 0])
  {
    var s: seq<u64> := [U64_MAX, 0];
    assert s[0] == U64_MAX && s[1] == 0;
  }
}
