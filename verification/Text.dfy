// Field and line text shared by the save formats: splitting, joining, decimal numbers.
module Text {
  import opened U64

  datatype Option<+T> = None | Some(value: T)

  const TAB: char := '\t'
  const LF: char := '\n'
  const CR: char := '\r'

  // ---- splitting and joining ----

  function Join(parts: seq<string>, sep: char): string
    requires |parts| > 0
  {
    if |parts| == 1 then parts[0] else parts[0] + [sep] + Join(parts[1..], sep)
  }

  predicate Free(s: string, c: char) {
    forall i :: 0 <= i < |s| ==> s[i] != c
  }

  predicate AllFree(parts: seq<string>, c: char) {
    forall i :: 0 <= i < |parts| ==> Free(parts[i], c)
  }

  function Split(s: string, sep: char): (parts: seq<string>)
    ensures |parts| > 0
  {
    if s == [] then [[]]
    else if s[0] == sep then [[]] + Split(s[1..], sep)
    else
      var rest := Split(s[1..], sep);
      [[s[0]] + rest[0]] + rest[1..]
  }

  lemma {:induction false} SplitPrepend(p: string, sep: char, s: string)
    requires Free(p, sep)
    ensures Split(p + [sep] + s, sep) == [p] + Split(s, sep)
    ensures Split(p, sep) == [p]
  {
    var t := p + [sep] + s;
    if p == [] {
      assert t[1..] == s;
    } else {
      SplitPrepend(p[1..], sep, s);
      assert t[1..] == p[1..] + [sep] + s;
      assert t[0] == p[0] != sep;
      assert [p[0]] + p[1..] == p;
    }
  }

  lemma {:induction false} PiecesAreFree(s: string, sep: char)
    ensures AllFree(Split(s, sep), sep)
  {
    if s != [] { PiecesAreFree(s[1..], sep); }
  }

  lemma {:induction false} PiecesJoin(s: string, sep: char)
    ensures Join(Split(s, sep), sep) == s
  {
    if s != [] {
      PiecesJoin(s[1..], sep);
      var rest := Split(s[1..], sep);
      if s[0] == sep {
        assert Split(s, sep)[1..] == rest;
      } else {
        assert Split(s, sep)[1..] == rest[1..];
        assert [s[0]] + s[1..] == s;
      }
    }
  }

  // Splitting yields the one list of separator-free parts that joins to `s`.
  lemma JoinSplit(s: string, sep: char)
    ensures AllFree(Split(s, sep), sep)
    ensures Join(Split(s, sep), sep) == s
  {
    PiecesAreFree(s, sep);
    PiecesJoin(s, sep);
  }

  // One step of the scan for separators, seen from the suffix that is left.
  lemma SplitStep(s: string, sep: char, start: nat, at: nat)
    requires start <= at < |s| && s[at] == sep && Free(s[start..at], sep)
    ensures Split(s[start..], sep) == [s[start..at]] + Split(s[at + 1..], sep)
  {
    SplitPrepend(s[start..at], sep, s[at + 1..]);
    assert s[start..] == s[start..at] + [sep] + s[at + 1..];
  }

  lemma {:induction false} SplitJoin(parts: seq<string>, sep: char)
    requires |parts| > 0 && AllFree(parts, sep)
    ensures Split(Join(parts, sep), sep) == parts
  {
    if |parts| == 1 {
      SplitPrepend(parts[0], sep, []);
    } else {
      SplitJoin(parts[1..], sep);
      SplitPrepend(parts[0], sep, Join(parts[1..], sep));
    }
  }

  method Find(s: string, c: char, start: nat) returns (at: Option<nat>)
    requires start <= |s|
    ensures at == None ==> Free(s[start..], c)
    ensures at.Some? ==> start <= at.value < |s| && s[at.value] == c && Free(s[start..at.value], c)
  {
    var i := start;
    while i < |s|
      invariant start <= i <= |s|
      invariant Free(s[start..i], c)
    {
      if s[i] == c { return Some(i); }
      assert s[start..i + 1] == s[start..i] + [s[i]];
      i := i + 1;
    }
    assert s[start..] == s[start..i];
    return None;
  }

  // The piece that starts at `start`, and where the next one starts if there is one.
  method NextPiece(s: string, sep: char, start: nat) returns (piece: string, next: Option<nat>)
    requires start <= |s|
    ensures next == None ==> Split(s[start..], sep) == [piece]
    ensures next.Some? ==> start < next.value <= |s|
    ensures next.Some? ==> Split(s[start..], sep) == [piece] + Split(s[next.value..], sep)
  {
    var at := Find(s, sep, start);
    match at {
      case None =>
        piece, next := s[start..], None;
        SplitPrepend(piece, sep, []);
      case Some(end) =>
        piece, next := s[start..end], Some(end + 1);
        SplitStep(s, sep, start, end);
    }
  }

  method SplitTabLine(line: string) returns (fields: seq<string>)
    ensures fields == Split(line, TAB)
  {
    fields := [];
    var start := 0;
    assert line[0..] == line;
    while start <= |line|
      invariant start <= |line|
      invariant Split(line, TAB) == fields + Split(line[start..], TAB)
    {
      var field, next := NextPiece(line, TAB, start);
      fields := fields + [field];
      if next == None { break; }
      start := next.value;
    }
  }

  // Lines terminated, not separated, by LF.
  function Terminated(lines: seq<string>): string {
    if lines == [] then [] else lines[0] + [LF] + Terminated(lines[1..])
  }

  lemma {:induction false} TerminatedConcat(a: seq<string>, b: seq<string>)
    ensures Terminated(a + b) == Terminated(a) + Terminated(b)
  {
    if a == [] {
      assert a + b == b;
    } else {
      assert (a + b)[1..] == a[1..] + b;
      TerminatedConcat(a[1..], b);
      calc {
        Terminated(a + b);
        a[0] + [LF] + (Terminated(a[1..]) + Terminated(b));
        Terminated(a) + Terminated(b);
      }
    }
  }

  lemma {:induction false} SplitTerminated(lines: seq<string>)
    requires AllFree(lines, LF)
    ensures Split(Terminated(lines), LF) == lines + [[]]
  {
    if lines != [] {
      SplitTerminated(lines[1..]);
      SplitPrepend(lines[0], LF, Terminated(lines[1..]));
    }
  }

  function StripCr(line: string): string {
    if line != [] && line[|line| - 1] == CR then line[..|line| - 1] else line
  }

  // ---- decimal numbers ----

  predicate IsDigit(c: char) { '0' <= c <= '9' }

  predicate AllDigits(s: string) { forall i :: 0 <= i < |s| ==> IsDigit(s[i]) }

  function Digit(c: char): (d: nat)
    requires IsDigit(c)
    ensures d < 10
  {
    c as int - '0' as int
  }

  // What a digit string denotes, whatever its length.
  function Value(s: string): nat
    requires AllDigits(s)
  {
    if s == [] then 0 else 10 * Value(s[..|s| - 1]) + Digit(s[|s| - 1])
  }

  // `std::to_string`.
  function Dec(n: nat): (s: string)
    ensures s != [] && AllDigits(s)
    ensures Value(s) == n
  {
    var last := ['0' + (n % 10) as char];
    if n < 10 then
      assert last[..0] == [];
      last
    else
      var s := Dec(n / 10) + last;
      assert s[..|s| - 1] == Dec(n / 10);
      s
  }

  lemma {:induction false} PrefixValue(s: string, k: nat)
    requires AllDigits(s) && k <= |s|
    ensures Value(s[..k]) <= Value(s)
  {
    if k < |s| {
      var t := s[..|s| - 1];
      PrefixValue(t, k);
      assert t[..k] == s[..k];
    } else {
      assert s[..k] == s;
    }
  }

  // Which texts are accepted as 64-bit numbers, and what they denote.
  function ParseU64(s: string): Option<u64> {
    if s != [] && AllDigits(s) && Value(s) <= U64_MAX then Some(Value(s)) else None
  }

  lemma ParseDec(n: u64)
    ensures ParseU64(Dec(n)) == Some(n)
  {
  }

  method ParseUint64(value: string) returns (output: Option<u64>)
    ensures output == ParseU64(value)
  {
    if value == [] { return None; }
    var parsed: u64 := 0;
    for i := 0 to |value|
      invariant AllDigits(value[..i])
      invariant parsed == Value(value[..i])
    {
      var c := value[i];
      if c < '0' || c > '9' { return None; }
      var digit: u64 := Digit(c);
      var prefix := value[..i + 1];
      assert prefix[..i] == value[..i] && AllDigits(prefix);
      if parsed > (U64_MAX - digit) / 10 {
        if AllDigits(value) { PrefixValue(value, i + 1); }
        return None;
      }
      parsed := parsed * 10 + digit;
    }
    assert value[..|value|] == value;
    return Some(parsed);
  }
}
