// What the JSON readers find in any text, well formed or not, told from its characters.
module JsonTerms {
  import opened U64
  import opened Text
  import opened ActionJson
  import opened ActionObjects

  // ---- blanks ----

  predicate IsBlank(c: char) { c in {' ', '\t', '\n', '\r', 11 as char, 12 as char} }

  predicate Blank(s: string) { forall i :: 0 <= i < |s| ==> IsBlank(s[i]) }

  predicate StartsDark(s: string) { s == [] || !IsBlank(s[0]) }

  lemma {:induction false} BlanksAreSkipped(w: string, s: string)
    requires Blank(w) && StartsDark(s)
    ensures SkipWs(w + s) == s
  {
    if w == [] {
      assert w + s == s;
    } else {
      assert (w + s)[1..] == w[1..] + s;
      BlanksAreSkipped(w[1..], s);
    }
  }

  lemma {:induction false} OnlyBlanksAreSkipped(s: string) returns (w: string)
    ensures s == w + SkipWs(s) && Blank(w) && StartsDark(SkipWs(s))
  {
    if s != [] && IsSpace(s[0]) {
      var rest := OnlyBlanksAreSkipped(s[1..]);
      w := [s[0]] + rest;
      assert s == [s[0]] + s[1..];
    } else {
      w := [];
    }
  }

  // ---- inside and outside of strings ----

  datatype Mode = Mode(inside: bool, escaped: bool, depth: nat)

  // Reading one more character: quotes open and close strings, a backslash in a string shields what
  // follows it, and braces outside of strings nest.
  function Step(m: Mode, c: char): Mode {
    if m.inside then
      if m.escaped then m.(escaped := false)
      else if c == '\\' then m.(escaped := true)
      else m.(inside := c != '\"')
    else if c == '\"' then m.(inside := true)
    else if c == '{' then m.(depth := m.depth + 1)
    else if c == '}' && m.depth > 0 then m.(depth := m.depth - 1)
    else m
  }

  const START := Mode(false, false, 0)

  // Where the reader is after the first n characters.
  function At(s: string, n: nat): Mode
    requires n <= |s|
  {
    if n == 0 then START else Step(At(s, n - 1), s[n - 1])
  }

  lemma {:induction false} StringCloses(s: string, i: nat, d: nat)
    requires i <= |s| && At(s, i) == Mode(true, false, d) && EndFrom(s, i).Some?
    ensures var j := EndFrom(s, i).value;
      && (forall q :: i <= q <= j ==> At(s, q).inside) && !At(s, j).escaped && At(s, j + 1) == Mode(false, false, d)
    decreases |s| - i
  {
    if s[i] == '\\' {
      assert At(s, i + 1) == Mode(true, true, d) && At(s, i + 2) == Mode(true, false, d);
      hide At, Step;
      StringCloses(s, i + 2, d);
    } else if s[i] != '\"' {
      assert At(s, i + 1) == Mode(true, false, d);
      hide At, Step;
      StringCloses(s, i + 1, d);
    }
  }

  lemma {:induction false} StringStaysOpen(s: string, i: nat, d: nat)
    requires i <= |s| && At(s, i) == Mode(true, false, d) && EndFrom(s, i) == None
    ensures forall q :: i <= q <= |s| ==> At(s, q).inside
    ensures forall q :: i <= q < |s| && s[q] == '\"' ==> At(s, q).escaped
    decreases |s| - i
  {
    if i < |s| {
      if s[i] == '\\' {
        assert At(s, i + 1) == Mode(true, true, d);
        if i + 1 < |s| {
          assert At(s, i + 2) == Mode(true, false, d);
          hide At, Step;
          StringStaysOpen(s, i + 2, d);
        }
      } else {
        assert At(s, i + 1) == Mode(true, false, d);
        hide At, Step;
        StringStaysOpen(s, i + 1, d);
      }
    }
  }

  // ---- the field finder ----

  // A string opens at i and closes at j.
  predicate StringAt(s: string, i: nat, j: nat)
    requires i < j < |s|
  {
    s[i] == '\"' && s[j] == '\"' && !At(s, i).inside && !At(s, j).escaped && forall q :: i < q <= j ==> At(s, q).inside
  }

  // A key: a string at depth one, spelling the field, with a colon at k after at most blanks.
  predicate KeyAt(s: string, i: nat, j: nat, k: nat, field: string) {
    && i < j < k < |s| && StringAt(s, i, j) && At(s, i).depth == 1
    && Blank(s[j + 1..k]) && s[k] == ':' && UnescapeJson(s[i + 1..j]) == field
  }

  predicate KeyFrom(s: string, p: nat, i: nat, j: nat, k: nat, field: string) { p <= i && KeyAt(s, i, j, k, field) }

  // The first key from p on is the one at i, and what follows its colon is v.
  ghost predicate FirstKey(s: string, p: nat, i: nat, j: nat, k: nat, field: string, v: string) {
    && KeyFrom(s, p, i, j, k, field) && v == s[k + 1..]
    && forall x, y, z :: KeyFrom(s, p, x, y, z, field) ==> i <= x
  }

  ghost predicate Finds(s: string, p: nat, field: string, r: Option<string>) {
    match r
    case None => forall i, j, k :: !KeyFrom(s, p, i, j, k, field)
    case Some(v) => exists i, j, k :: FirstKey(s, p, i, j, k, field, v)
  }

  // Where one key is, its closing quote and its colon are settled.
  lemma ClosesOnce(s: string, i: nat, j: nat, y: nat)
    requires i < j < |s| && i < y < |s| && StringAt(s, i, j) && StringAt(s, i, y)
    ensures j == y
  {
    assert !At(s, j + 1).inside && !At(s, y + 1).inside;
  }

  // No key begins between p and q, so looking from either is the same.
  lemma SkipTo(s: string, p: nat, q: nat, field: string, r: Option<string>)
    requires p <= q && Finds(s, q, field, r)
    requires forall i, j, k :: p <= i < q ==> !KeyAt(s, i, j, k, field)
    ensures Finds(s, p, field, r)
  {
    hide KeyAt;
    if r.Some? {
      var i, j, k :| FirstKey(s, q, i, j, k, field, r.value);
      forall x, y, z | KeyFrom(s, p, x, y, z, field) ensures i <= x { assert KeyFrom(s, q, x, y, z, field); }
      assert FirstKey(s, p, i, j, k, field, r.value);
    } else {
      forall x, y, z ensures !KeyFrom(s, p, x, y, z, field) {
        assert KeyFrom(s, p, x, y, z, field) == KeyFrom(s, q, x, y, z, field);
      }
    }
  }

  // The colon after a string, if only blanks stand before it.
  lemma ColonAfter(s: string, j: nat) returns (k: nat)
    requires j < |s|
    ensures var c := SkipWs(s[j + 1..]);
      && j < k <= |s| && c == s[k..] && Blank(s[j + 1..k])
      && forall z :: j < z < |s| && Blank(s[j + 1..z]) && s[z] == ':' ==> z == k
  {
    var after := s[j + 1..];
    var w := OnlyBlanksAreSkipped(after);
    k := j + 1 + |w|;
    assert s[j + 1..k] == w && s[k..] == SkipWs(after);
    forall z | j < z < |s| && Blank(s[j + 1..z]) && s[z] == ':' ensures z == k {
      BlankSlice(s, j + 1, z);
      BlankSlice(s, j + 1, k);
    }
  }

  lemma BlankSlice(s: string, a: nat, b: nat)
    requires a <= b <= |s|
    ensures Blank(s[a..b]) <==> forall x :: a <= x < b ==> IsBlank(s[x])
  {
    var t := s[a..b];
    assert forall x :: a <= x < b ==> t[x - a] == s[x];
  }

  // The finder stands before a string: it takes it for the key, or goes on behind it.
  lemma StringIsKey(s: string, p: nat, j: nat, field: string, d: nat)
    requires p < j < |s| && StringAt(s, p, j) && At(s, p) == Mode(false, false, d)
    ensures var c := SkipWs(s[j + 1..]);
      if d == 1 && c != [] && c[0] == ':' && UnescapeJson(s[p + 1..j]) == field then
        Finds(s, p, field, Some(c[1..]))
      else forall i, y, z :: p <= i <= j ==> !KeyAt(s, i, y, z, field)
  {
    var c := SkipWs(s[j + 1..]);
    var k := ColonAfter(s, j);
    hide SkipWs, UnescapeJson, Blank, StringAt;
    if d == 1 && c != [] && c[0] == ':' && UnescapeJson(s[p + 1..j]) == field {
      assert FirstKey(s, p, p, j, k, field, c[1..]);
    } else {
      forall i, y, z | p <= i <= j ensures !KeyAt(s, i, y, z, field) {
        if KeyAt(s, i, y, z, field) {
          OnlyOpening(s, p, j, i, y);
          ClosesOnce(s, p, j, y);
        }
      }
    }
  }

  // No other string opens inside of one.
  lemma OnlyOpening(s: string, p: nat, j: nat, i: nat, y: nat)
    requires p < j < |s| && StringAt(s, p, j) && p <= i <= j && i < y < |s| && StringAt(s, i, y)
    ensures i == p
  {
  }

  // One step of the finder, by position.
  lemma FinderSteps(s: string, p: nat, d: nat, field: string)
    requires p < |s| && s[p] != '\"'
    ensures FindValue(s[p..], d, field) == FindValue(s[p + 1..], Step(Mode(false, false, d), s[p]).depth, field)
  {
    assert s[p..][1..] == s[p + 1..];
  }

  lemma FinderJumps(s: string, p: nat, d: nat, field: string)
    requires p < |s| && s[p] == '\"'
    ensures EndFrom(s, p + 1) == None ==> FindValue(s[p..], d, field) == None
    ensures EndFrom(s, p + 1).Some? ==>
      var j := EndFrom(s, p + 1).value; var c := SkipWs(s[j + 1..]);
      FindValue(s[p..], d, field) ==
        if d == 1 && c != [] && c[0] == ':' && UnescapeJson(s[p + 1..j]) == field then Some(c[1..])
        else FindValue(s[j + 1..], d, field)
  {
    hide EndFrom, StringEnd, SkipWs, UnescapeJson;
    RawText(s, p);
    if EndFrom(s, p + 1).Some? {
      var j := EndFrom(s, p + 1).value;
      assert s[p..][j - p + 1..] == s[j + 1..];
    }
  }

  lemma BehindString(s: string, p: nat, j: nat, field: string, d: nat, r: Option<string>)
    requires p < j < |s| && StringAt(s, p, j) && At(s, p) == Mode(false, false, d) && Finds(s, j + 1, field, r)
    ensures var c := SkipWs(s[j + 1..]);
      var key := d == 1 && c != [] && c[0] == ':' && UnescapeJson(s[p + 1..j]) == field;
      Finds(s, p, field, if key then Some(c[1..]) else r)
  {
    StringIsKey(s, p, j, field, d);
    hide Finds, KeyAt, StringAt, At, SkipWs, UnescapeJson;
    var c := SkipWs(s[j + 1..]);
    if !(d == 1 && c != [] && c[0] == ':' && UnescapeJson(s[p + 1..j]) == field) {
      SkipTo(s, p, j + 1, field, r);
    }
  }

  // The string that opens at p, if it closes at all.
  lemma StringFrom(s: string, p: nat, field: string, d: nat)
    requires p < |s| && s[p] == '\"' && At(s, p) == Mode(false, false, d)
    ensures EndFrom(s, p + 1).Some? ==>
      var j := EndFrom(s, p + 1).value; p < j && StringAt(s, p, j) && At(s, j + 1) == Mode(false, false, d)
    ensures EndFrom(s, p + 1) == None ==> Finds(s, p, field, None)
  {
    assert At(s, p + 1) == Mode(true, false, d);
    if EndFrom(s, p + 1) == None {
      StringStaysOpen(s, p + 1, d);
      Unclosed(s, p, field);
    } else {
      StringCloses(s, p + 1, d);
    }
  }

  lemma AtNext(s: string, p: nat)
    requires p < |s|
    ensures At(s, p + 1) == Step(At(s, p), s[p])
  {
  }

  lemma {:induction false} FinderFinds(s: string, p: nat, field: string, d: nat)
    requires p <= |s| && At(s, p) == Mode(false, false, d)
    ensures Finds(s, p, field, FindValue(s[p..], d, field))
    decreases |s| - p
  {
    hide Finds, EndFrom, At, KeyAt, StringAt, SkipWs, UnescapeJson;
    if p == |s| {
      NoKeyAtEnd(s, p, field);
    } else if s[p] == '\"' {
      StringFrom(s, p, field, d);
      FinderJumps(s, p, d, field);
      hide FindValue;
      if EndFrom(s, p + 1).Some? {
        var j := EndFrom(s, p + 1).value;
        FinderFinds(s, j + 1, field, d);
        BehindString(s, p, j, field, d, FindValue(s[j + 1..], d, field));
      }
    } else {
      AtNext(s, p);
      FinderSteps(s, p, d, field);
      hide FindValue;
      FinderFinds(s, p + 1, field, At(s, p + 1).depth);
      NotAQuote(s, p, field);
      SkipTo(s, p, p + 1, field, FindValue(s[p..], d, field));
    }
  }

  lemma NoKeyAtEnd(s: string, p: nat, field: string)
    requires p == |s|
    ensures Finds(s, p, field, None)
  {
  }

  lemma NotAQuote(s: string, p: nat, field: string)
    requires p < |s| && s[p] != '\"'
    ensures forall i, j, k :: p <= i < p + 1 ==> !KeyAt(s, i, j, k, field)
  {
  }

  lemma Unclosed(s: string, p: nat, field: string)
    requires p < |s| && !At(s, p).inside
    requires forall q :: p < q <= |s| ==> At(s, q).inside
    requires forall q :: p < q < |s| && s[q] == '\"' ==> At(s, q).escaped
    ensures Finds(s, p, field, None)
  {
  }

  // In any text the finder gives what follows the first key of that name, and nothing if there is no such key.
  lemma FoundExactly(s: string, field: string)
    ensures Finds(s, 0, field, FindValue(s, 0, field))
  {
    assert s[0..] == s;
    FinderFinds(s, 0, field, 0);
  }

  // ---- the values ----

  lemma {:induction false} BlanksKeepMode(s: string, n: nat)
    requires n <= |s| && Blank(s[..n])
    ensures At(s, n) == START
  {
    if n > 0 {
      BlankSlice(s, 0, n);
      BlankSlice(s, 0, n - 1);
      assert s[..n] == s[0..n] && s[..n - 1] == s[0..n - 1];
      BlanksKeepMode(s, n - 1);
    }
  }

  // The front of a value: blanks, then what the readers look at.
  lemma Front(v: string) returns (a: nat)
    ensures a <= |v| && Blank(v[..a]) && SkipWs(v) == v[a..] && StartsDark(v[a..]) && At(v, a) == START
  {
    var w := OnlyBlanksAreSkipped(v);
    a := |w|;
    assert v[..a] == w && v[a..] == SkipWs(v);
    BlanksKeepMode(v, a);
  }

  lemma FrontIsUnique(v: string, a: nat)
    requires a <= |v| && Blank(v[..a]) && StartsDark(v[a..])
    ensures SkipWs(v) == v[a..]
  {
    BlanksAreSkipped(v[..a], v[a..]);
    assert v[..a] + v[a..] == v;
  }

  // The value is a string: after blanks it opens at a and closes at b.
  predicate StringValue(v: string, a: nat, b: nat) { a < b < |v| && Blank(v[..a]) && StringAt(v, a, b) }

  lemma StringValueReads(v: string, a: nat, b: nat)
    requires StringValue(v, a, b)
    ensures var q := SkipWs(v);
      q != [] && q[0] == '\"' && StringEnd(q[1..]) == Some(b - a - 1) && q[1..b - a] == v[a + 1..b]
  {
    FrontIsUnique(v, a);
    BlanksKeepMode(v, a);
    RawText(v, a);
    assert At(v, a + 1) == Mode(true, false, 0);
    hide EndFrom, StringEnd, SkipWs;
    if EndFrom(v, a + 1) == None {
      StringStaysOpen(v, a + 1, 0);
    } else {
      StringCloses(v, a + 1, 0);
      ClosesOnce(v, a, EndFrom(v, a + 1).value, b);
    }
  }

  ghost predicate ReadsString(v: string, r: Option<string>) {
    match r
    case None => forall a: nat, b: nat :: !StringValue(v, a, b)
    case Some(t) => exists a: nat, b: nat :: StringValue(v, a, b) && t == UnescapeJson(v[a + 1..b])
  }

  // A field reads as a string exactly when its value is one, whatever follows it.
  lemma StringExactly(s: string, field: string)
    ensures match FindValue(s, 0, field)
      case None => StringField(s, field) == None
      case Some(v) => ReadsString(v, StringField(s, field))
  {
    hide FindValue, StringEnd, UnescapeJson;
    if FindValue(s, 0, field).Some? {
      var v := FindValue(s, 0, field).value;
      forall a: nat, b: nat | StringValue(v, a, b) ensures StringField(s, field) == Some(UnescapeJson(v[a + 1..b])) {
        StringValueReads(v, a, b);
      }
      if StringField(s, field).Some? { var a, b := StringFieldIsValue(v); }
    }
  }

  lemma StringFieldIsValue(v: string) returns (a: nat, b: nat)
    requires var q := SkipWs(v); q != [] && q[0] == '\"' && StringEnd(q[1..]).Some?
    ensures StringValue(v, a, b) && var q := SkipWs(v); q[1..StringEnd(q[1..]).value + 1] == v[a + 1..b]
  {
    a := Front(v);
    RawText(v, a);
    assert At(v, a + 1) == Mode(true, false, 0);
    b := EndFrom(v, a + 1).value;
    hide EndFrom, StringEnd, SkipWs;
    StringCloses(v, a + 1, 0);
  }

  // The value is a number: after blanks digits, then at most blanks before a comma, a brace or the end.
  predicate NumberValue(v: string, a: nat, b: nat, c: nat) {
    && a < b <= c <= |v| && Blank(v[..a]) && AllDigits(v[a..b]) && Blank(v[b..c])
    && (c == |v| || v[c] in {',', '}'})
  }

  ghost predicate ReadsNumber(v: string, r: Option<u64>) {
    match r
    case None => forall a: nat, b: nat, c: nat :: !(NumberValue(v, a, b, c) && Value(v[a..b]) <= U64_MAX)
    case Some(n) => exists a: nat, b: nat, c: nat :: NumberValue(v, a, b, c) && n == Value(v[a..b])
  }

  lemma NumberValueReads(v: string, a: nat, b: nat, c: nat)
    requires NumberValue(v, a, b, c)
    ensures var q := SkipWs(v);
      q == v[a..] && Digits(q) == v[a..b] && Digits(q) != [] && EndsNumber(q[|Digits(q)|..])
  {
    assert IsDigit(v[a..b][0]);
    FrontIsUnique(v, a);
    assert v[b..] == v[b..c] + v[c..];
    if b < c { assert IsBlank(v[b..c][0]); }
    assert v[a..] == v[a..b] + v[b..];
    DigitsUnique(v[a..b], v[b..]);
    BlanksAreSkipped(v[b..c], v[c..]);
    assert v[a..][b - a..] == v[b..];
  }

  lemma NumberFieldIsValue(v: string) returns (a: nat, b: nat, c: nat)
    requires var q := SkipWs(v); Digits(q) != [] && EndsNumber(q[|Digits(q)|..])
    ensures NumberValue(v, a, b, c) && v[a..b] == Digits(SkipWs(v))
  {
    hide SkipWs, Digits, At, StartsDark, Blank;
    a := Front(v);
    b := a + |Digits(v[a..])|;
    var w := OnlyBlanksAreSkipped(v[b..]);
    c := b + |w|;
    assert v[a..][|Digits(v[a..])|..] == v[b..];
    assert v[b..c] == w && v[c..] == SkipWs(v[b..]);
    assert v[a..b] == Digits(v[a..]);
  }

  // A field reads as a number exactly when its value is one that 64 bits hold.
  lemma NumberExactly(s: string, field: string)
    ensures match FindValue(s, 0, field)
      case None => UintField(s, field) == None
      case Some(v) => ReadsNumber(v, UintField(s, field))
  {
    hide FindValue, Digits, EndsNumber, SkipWs, Value, Blank;
    if FindValue(s, 0, field).Some? {
      var v := FindValue(s, 0, field).value;
      forall a: nat, b: nat, c: nat | NumberValue(v, a, b, c)
        ensures UintField(s, field) == if Value(v[a..b]) <= U64_MAX then Some(Value(v[a..b])) else None
      {
        NumberValueReads(v, a, b, c);
      }
      if UintField(s, field).Some? { var a, b, c := NumberFieldIsValue(v); }
    }
  }

  // An object is at the front: the brace at b is the first to bring the nesting back to where it was.
  predicate ObjectText(q: string, b: nat) {
    && b < |q| && q[0] == '{' && At(q, b + 1) == START
    && forall x :: 0 < x <= b ==> At(q, x).inside || At(q, x).depth > 0
  }

  // Nothing closes between i and j.
  predicate Held(s: string, i: nat, j: nat)
    requires j <= |s|
  {
    forall q :: i <= q <= j ==> At(s, q).inside || At(s, q).depth > 0
  }

  lemma HeldFrom(s: string, i: nat, k: nat, j: nat)
    requires i < k <= |s| && j <= |s| && Held(s, k, j)
    requires forall q :: i <= q < k ==> At(s, q).inside || At(s, q).depth > 0
    ensures Held(s, i, j)
  {
    hide At;
  }

  ghost predicate Closes(s: string, i: nat, e: Option<nat>)
    requires e.Some? ==> e.value < |s|
  {
    match e case None => Held(s, i, |s|) case Some(n) => At(s, n + 1) == START && Held(s, i, n)
  }

  lemma ClosesFrom(s: string, i: nat, k: nat, e: Option<nat>)
    requires i < k <= |s| && (e.Some? ==> e.value < |s|) && Closes(s, k, e)
    requires forall q :: i <= q < k ==> At(s, q).inside || At(s, q).depth > 0
    ensures Closes(s, i, e)
  {
    hide At, Held;
    HeldFrom(s, i, k, if e.Some? then e.value else |s|);
  }

  lemma ClosesHere(s: string, i: nat)
    requires i < |s| && s[i] == '}' && At(s, i) == Mode(false, false, 1)
    ensures Closes(s, i, Some(i))
  {
  }

  lemma StaysOpen(s: string, i: nat, d: nat)
    requires d > 0 && i < |s| && s[i] == '\"' && At(s, i) == Mode(false, false, d) && EndFrom(s, i + 1) == None
    ensures Closes(s, i, None)
  {
    AtNext(s, i);
    hide At, EndFrom;
    StringStaysOpen(s, i + 1, d);
  }

  lemma {:induction false} BracesClose(s: string, i: nat, d: nat)
    requires i <= |s| && d > 0 && At(s, i) == Mode(false, false, d)
    ensures Closes(s, i, CloseFrom(s, i, d))
    decreases |s| - i
  {
    hide EndFrom, Closes, At;
    if i == |s| {
      EndIsOpen(s, d);
    } else {
      AtNext(s, i);
      if s[i] == '\"' {
        if EndFrom(s, i + 1) == None {
          StaysOpen(s, i, d);
        } else {
          StringCloses(s, i + 1, d);
          var j := EndFrom(s, i + 1).value;
          BracesClose(s, j + 1, d);
          ClosesFrom(s, i, j + 1, CloseFrom(s, j + 1, d));
        }
      } else if s[i] == '}' && d == 1 {
        ClosesHere(s, i);
      } else {
        var d' := At(s, i + 1).depth;
        BracesClose(s, i + 1, d');
        ClosesFrom(s, i, i + 1, CloseFrom(s, i + 1, d'));
      }
    }
  }

  lemma EndIsOpen(s: string, d: nat)
    requires d > 0 && At(s, |s|) == Mode(false, false, d)
    ensures Closes(s, |s|, None)
  {
  }

  lemma ObjectTextCloses(q: string)
    requires q != [] && q[0] == '{'
    ensures match CloseFrom(q, 0, 0)
      case None => forall b :: !ObjectText(q, b)
      case Some(e) => ObjectText(q, e)
    ensures forall b, c :: ObjectText(q, b) && ObjectText(q, c) ==> b == c
  {
    AtNext(q, 0);
    BracesClose(q, 1, 1);
    assert CloseFrom(q, 0, 0) == CloseFrom(q, 1, 1);
    hide CloseFrom;
    assert At(q, 1).depth > 0;
    hide At;
  }

  // After blanks there is an object, which is read to its own closing brace.
  ghost predicate ReadsObject(v: string, r: Option<string>) {
    match r
    case None => forall a: nat, b: nat :: a <= |v| && Blank(v[..a]) && b < |v[a..]| ==> !ObjectText(v[a..], b)
    case Some(o) => exists a: nat, b: nat :: a <= |v| && Blank(v[..a]) && b < |v[a..]| && ObjectText(v[a..], b)
                                            && o == v[a..][..b + 1]
  }

  lemma ObjectExactly(s: string, field: string)
    ensures match FindValue(s, 0, field)
      case None => ObjectField(s, field) == None
      case Some(v) => ReadsObject(v, ObjectField(s, field))
  {
    hide FindValue, CloseFrom, ObjectText, SkipWs, At, Blank;
    if FindValue(s, 0, field).Some? {
      var v := FindValue(s, 0, field).value;
      var f := Front(v);
      forall a: nat, b: nat | a <= |v| && Blank(v[..a]) && b < |v[a..]| && ObjectText(v[a..], b)
        ensures ObjectField(s, field) == Some(v[a..][..b + 1])
      {
        StartsWithBrace(v[a..], b);
        FrontIsUnique(v, a);
        ObjectTextCloses(v[a..]);
      }
      if SkipWs(v) != [] && SkipWs(v)[0] == '{' { ObjectTextCloses(SkipWs(v)); }
    }
  }

  lemma StartsWithBrace(q: string, b: nat)
    requires ObjectText(q, b)
    ensures q != [] && q[0] == '{' && StartsDark(q)
  {
  }
}
