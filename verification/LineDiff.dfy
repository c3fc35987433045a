// Counting the differences between two line lists by a sorted merge.
module LineDiff {
  import opened Sorting

  // How many lines must be removed from one list and added from the other.
  ghost function Mismatches(a: multiset<string>, b: multiset<string>): nat {
    |a - b| + |b - a|
  }

  lemma SortedTailIsAbove(s: seq<string>, i: nat, x: string)
    requires SortedBy(StrLe, s) && i < |s| && StrLess(x, s[i])
    ensures x !in multiset(s[i..])
  {
    forall k | i <= k < |s| ensures s[k] != x {
      StrLeTotal(x, x);
    }
  }

  lemma DropCommon(a: multiset<string>, b: multiset<string>, x: string)
    ensures Mismatches(a + multiset{x}, b + multiset{x}) == Mismatches(a, b)
  {
    assert (a + multiset{x}) - (b + multiset{x}) == a - b;
    assert (b + multiset{x}) - (a + multiset{x}) == b - a;
  }

  lemma DropOwn(a: multiset<string>, b: multiset<string>, x: string)
    requires x !in b
    ensures Mismatches(a + multiset{x}, b) == 1 + Mismatches(a, b)
    ensures Mismatches(b, a + multiset{x}) == 1 + Mismatches(b, a)
  {
    assert (a + multiset{x}) - b == (a - b) + multiset{x};
    assert b - (a + multiset{x}) == b - a;
  }

  lemma TakeHead(s: seq<string>, i: nat)
    requires i < |s|
    ensures multiset(s[i..]) == multiset(s[i + 1..]) + multiset{s[i]}
  {
    assert s[i..] == [s[i]] + s[i + 1..];
  }

  // What is left of the two lists from i and j on.
  ghost function Left(e: seq<string>, i: nat, a: seq<string>, j: nat): nat
    requires i <= |e| && j <= |a|
  {
    Mismatches(multiset(e[i..]), multiset(a[j..]))
  }

  lemma SkipLeft(e: seq<string>, i: nat, a: seq<string>, j: nat)
    requires i < |e| && j <= |a| && e[i] !in multiset(a[j..])
    ensures Left(e, i, a, j) == 1 + Left(e, i + 1, a, j)
  {
    TakeHead(e, i);
    DropOwn(multiset(e[i + 1..]), multiset(a[j..]), e[i]);
  }

  lemma SkipRight(e: seq<string>, i: nat, a: seq<string>, j: nat)
    requires i <= |e| && j < |a| && a[j] !in multiset(e[i..])
    ensures Left(e, i, a, j) == 1 + Left(e, i, a, j + 1)
  {
    TakeHead(a, j);
    DropOwn(multiset(a[j + 1..]), multiset(e[i..]), a[j]);
  }

  lemma SkipBoth(e: seq<string>, i: nat, a: seq<string>, j: nat)
    requires i < |e| && j < |a| && e[i] == a[j]
    ensures Left(e, i, a, j) == Left(e, i + 1, a, j + 1)
  {
    TakeHead(e, i);
    TakeHead(a, j);
    DropCommon(multiset(e[i + 1..]), multiset(a[j + 1..]), e[i]);
  }

  method CountLineMismatches(expected: seq<string>, actual: seq<string>) returns (mismatches: nat)
    ensures mismatches == Mismatches(multiset(expected), multiset(actual))
  {
    StrLeIsTotalPreorder();
    var e := Sort(StrLe, expected);
    var a := Sort(StrLe, actual);
    mismatches := 0;
    var i, j := 0, 0;
    assert e[0..] == e && a[0..] == a;
    while i < |e| || j < |a|
      invariant i <= |e| && j <= |a|
      invariant mismatches + Left(e, i, a, j) == Mismatches(multiset(expected), multiset(actual))
      decreases (|e| - i) + (|a| - j)
    {
      if i >= |e| {
        SkipRight(e, i, a, j);
        mismatches := mismatches + 1;
        j := j + 1;
      } else if j >= |a| {
        SkipLeft(e, i, a, j);
        mismatches := mismatches + 1;
        i := i + 1;
      } else if e[i] == a[j] {
        SkipBoth(e, i, a, j);
        i, j := i + 1, j + 1;
      } else if StrLess(e[i], a[j]) {
        SortedTailIsAbove(a, j, e[i]);
        SkipLeft(e, i, a, j);
        mismatches := mismatches + 1;
        i := i + 1;
      } else {
        StrLeTotal(e[i], a[j]);
        if StrLe(e[i], a[j]) { StrLeAntisymmetric(e[i], a[j]); }
        SortedTailIsAbove(e, i, a[j]);
        SkipRight(e, i, a, j);
        mismatches := mismatches + 1;
        j := j + 1;
      }
    }
  }

  // The count does not depend on the order of lines or on which list is called expected,
  // and it is zero exactly for rearrangements of one list.
  lemma MismatchesLaws(a: multiset<string>, b: multiset<string>)
    ensures Mismatches(a, b) == Mismatches(b, a)
    ensures Mismatches(a, b) == 0 <==> a == b
  {
    if Mismatches(a, b) == 0 {
      assert forall x :: x !in a - b && x !in b - a;
      assert forall x :: (a - b)[x] == 0 && (b - a)[x] == 0;
    }
  }

  // Replaying in two stages can only be as bad as both stages together.
  lemma MismatchesTriangle(a: multiset<string>, b: multiset<string>, c: multiset<string>)
    ensures Mismatches(a, c) <= Mismatches(a, b) + Mismatches(b, c)
  {
    SubBag(a - c, (a - b) + (b - c));
    SubBag(c - a, (c - b) + (b - a));
  }

  lemma SubBag(x: multiset<string>, y: multiset<string>)
    requires x <= y
    ensures |x| <= |y|
  {
    assert y == x + (y - x);
  }
}
