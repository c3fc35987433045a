// The action bridge's JSON text: its scanner, its escaping, and its printer of action results.
module ActionJson {
  import opened U64
  import opened Text

  const QUOTE: char := '"'
  const BACKSLASH: char := '\\'

  // ---- escaping ----

  function EscapeChar(c: char): string {
    if c == QUOTE then [BACKSLASH, QUOTE]
    else if c == BACKSLASH then [BACKSLASH, BACKSLASH]
    else if c == LF then [BACKSLASH, 'n']
    else if c == CR then [BACKSLASH, 'r']
    else if c == TAB then [BACKSLASH, 't']
    else [c]
  }

  function EscapeJson(s: string): string {
    if s == [] then [] else EscapeChar(s[0]) + EscapeJson(s[1..])
  }

  lemma {:induction false} EscapeConcat(a: string, b: string)
    ensures EscapeJson(a + b) == EscapeJson(a) + EscapeJson(b)
  {
    if a == [] {
      assert a + b == b;
    } else {
      assert (a + b)[1..] == a[1..] + b;
      EscapeConcat(a[1..], b);
    }
  }

  // Wherever a character stands, five are written with a backslash, and every other as itself.
  lemma EscapesExactly(a: string, c: char, b: string)
    ensures EscapeJson(a + [c] + b) ==
      EscapeJson(a)
      + (match c
         case '\"' => ['\\', '\"'] case '\\' => ['\\', '\\']
         case '\n' => ['\\', 'n'] case '\r' => ['\\', 'r'] case '\t' => ['\\', 't']
         case _ => [c])
      + EscapeJson(b)
  {
    assert [c][1..] == [] && EscapeJson([c]) == EscapeChar(c);
    hide EscapeJson;
    EscapeConcat(a, [c]);
    EscapeConcat(a + [c], b);
  }

  function Decode(c: char): char {
    if c == 'n' then LF else if c == 'r' then CR else if c == 't' then TAB else c
  }

  // A backslash with nothing after it is dropped.
  function UnescapeJson(s: string): string {
    if s == [] then []
    else if s[0] != BACKSLASH then [s[0]] + UnescapeJson(s[1..])
    else if |s| == 1 then []
    else [Decode(s[1])] + UnescapeJson(s[2..])
  }

  // Read from the front: a backslash and the character after it stand for one character, a backslash alone
  // for none, and every other character for itself.
  lemma UnescapesExactly(c: char, rest: string)
    ensures UnescapeJson("") == "" && UnescapeJson(['\\']) == ""
    ensures c != '\\' ==> UnescapeJson([c] + rest) == [c] + UnescapeJson(rest)
    ensures UnescapeJson(['\\', c] + rest) ==
            [match c case 'n' => '\n' case 'r' => '\r' case 't' => '\t' case _ => c] + UnescapeJson(rest)
  {
    assert ([c] + rest)[1..] == rest && (['\\', c] + rest)[2..] == rest;
  }

  method UnescapeJsonString(value: string) returns (output: string)
    ensures output == UnescapeJson(value)
  {
    output := [];
    var escaping := false;
    assert value[0..] == value;
    for i := 0 to |value|
      invariant escaping ==> i > 0 && value[i - 1] == BACKSLASH
      invariant UnescapeJson(value) == output + UnescapeJson(if escaping then value[i - 1..] else value[i..])
    {
      var c := value[i];
      assert value[i..][1..] == value[i + 1..];
      if escaping {
        assert value[i - 1..][1] == c && value[i - 1..][2..] == value[i + 1..];
        output := output + [Decode(c)];
        escaping := false;
      } else if c == BACKSLASH {
        escaping := true;
      } else {
        output := output + [c];
      }
    }
  }

  lemma UnescapeOne(c: char, rest: string)
    ensures UnescapeJson(EscapeChar(c) + rest) == [c] + UnescapeJson(rest)
  {
    var e := EscapeChar(c) + rest;
    if |EscapeChar(c)| == 2 {
      assert e[2..] == rest;
    } else {
      assert e[1..] == rest;
    }
  }

  lemma {:induction false} UnescapeEscape(s: string)
    ensures UnescapeJson(EscapeJson(s)) == s
  {
    if s != [] {
      UnescapeEscape(s[1..]);
      UnescapeOne(s[0], EscapeJson(s[1..]));
    }
  }

  // ---- scanning ----

  predicate IsSpace(c: char) { c == ' ' || 9 <= c as int <= 13 }

  function SkipWs(s: string): string {
    if s != [] && IsSpace(s[0]) then SkipWs(s[1..]) else s
  }

  method SkipSpaces(json: string, start: nat) returns (index: nat)
    requires start <= |json|
    ensures start <= index <= |json| && json[index..] == SkipWs(json[start..])
  {
    index := start;
    while index < |json| && IsSpace(json[index])
      invariant start <= index <= |json|
      invariant SkipWs(json[index..]) == SkipWs(json[start..])
    {
      assert json[index..][1..] == json[index + 1..];
      index := index + 1;
    }
  }

  // Where the closing quote is, in the text that follows an opening quote.
  function StringEnd(s: string): (e: Option<nat>)
    ensures e.Some? ==> e.value < |s| && s[e.value] == QUOTE
  {
    if s == [] then None
    else if s[0] == QUOTE then Some(0)
    else if s[0] == BACKSLASH then
      if |s| == 1 then None
      else match StringEnd(s[2..]) case None => None case Some(e) => Some(e + 2)
    else match StringEnd(s[1..]) case None => None case Some(e) => Some(e + 1)
  }

  function Shift(e: Option<nat>, k: nat): Option<nat> {
    match e case None => None case Some(n) => Some(n + k)
  }

  // The same by position in the whole text.
  function EndFrom(json: string, i: nat): (e: Option<nat>)
    ensures e.Some? ==> i <= e.value < |json| && json[e.value] == QUOTE
    decreases |json| - i
  {
    if i >= |json| then None
    else if json[i] == QUOTE then Some(i)
    else if json[i] == BACKSLASH then if i + 1 >= |json| then None else EndFrom(json, i + 2)
    else EndFrom(json, i + 1)
  }

  lemma {:induction false} EndFromIsStringEnd(json: string, i: nat)
    requires i <= |json|
    ensures EndFrom(json, i) == Shift(StringEnd(json[i..]), i)
    decreases |json| - i
  {
    if i < |json| {
      var s := json[i..];
      assert s[0] == json[i] && s[1..] == json[i + 1..];
      if json[i] == BACKSLASH {
        if i + 1 < |json| {
          assert s[2..] == json[i + 2..];
          EndFromIsStringEnd(json, i + 2);
        }
      } else if json[i] != QUOTE {
        EndFromIsStringEnd(json, i + 1);
      }
    }
  }

  method FindStringEnd(json: string, quoteIndex: nat) returns (end: Option<nat>)
    requires quoteIndex < |json|
    ensures end == EndFrom(json, quoteIndex + 1)
    ensures end.Some? ==> quoteIndex < end.value < |json|
  {
    var escaping := false;
    var index := quoteIndex + 1;
    while index < |json|
      invariant quoteIndex + 1 <= index <= |json|
      invariant escaping ==> index > quoteIndex + 1 && json[index - 1] == BACKSLASH
      invariant EndFrom(json, quoteIndex + 1) == EndFrom(json, if escaping then index - 1 else index)
    {
      var c := json[index];
      if escaping {
        escaping := false;
      } else if c == BACKSLASH {
        escaping := true;
      } else if c == QUOTE {
        return Some(index);
      }
      index := index + 1;
    }
    return None;
  }

  // The text after `"field":` at nesting depth 1, reading `s` from nesting depth `depth`.
  function FindValue(s: string, depth: nat, field: string): Option<string> {
    if s == [] then None
    else if s[0] == QUOTE then
      match StringEnd(s[1..])
      case None => None
      case Some(e) =>
        var after := s[e + 2..];
        var colon := SkipWs(after);
        if depth == 1 && colon != [] && colon[0] == ':' && UnescapeJson(s[1..e + 1]) == field then Some(colon[1..])
        else FindValue(after, depth, field)
    else if s[0] == '{' then FindValue(s[1..], depth + 1, field)
    else if s[0] == '}' then FindValue(s[1..], if depth > 0 then depth - 1 else 0, field)
    else FindValue(s[1..], depth, field)
  }

  // Stepping over a string literal that starts at `index` and closes at `e`.
  lemma ScanString(json: string, index: nat, e: nat, depth: nat, field: string)
    requires index < |json| && json[index] == QUOTE && EndFrom(json, index + 1) == Some(e)
    ensures index < e < |json|
    ensures var colon := SkipWs(json[e + 1..]);
            FindValue(json[index..], depth, field) ==
            if depth == 1 && colon != [] && colon[0] == ':' && UnescapeJson(json[index + 1..e]) == field
            then Some(colon[1..]) else FindValue(json[e + 1..], depth, field)
  {
    var s := json[index..];
    EndFromIsStringEnd(json, index + 1);
    assert s[0] == QUOTE && s[1..] == json[index + 1..];
    var k := e - index - 1;
    assert StringEnd(s[1..]) == Some(k);
    assert s[k + 2..] == json[e + 1..] && s[1..k + 1] == json[index + 1..e];
  }

  lemma ScanUnclosed(json: string, index: nat, depth: nat, field: string)
    requires index < |json| && json[index] == QUOTE && EndFrom(json, index + 1) == None
    ensures FindValue(json[index..], depth, field) == None
  {
    EndFromIsStringEnd(json, index + 1);
    assert json[index..][1..] == json[index + 1..];
  }

  function NextDepth(c: char, depth: nat): nat {
    if c == '{' then depth + 1 else if c == '}' && depth > 0 then depth - 1 else depth
  }

  lemma ScanOther(json: string, index: nat, depth: nat, field: string)
    requires index < |json| && json[index] != QUOTE
    ensures FindValue(json[index..], depth, field) == FindValue(json[index + 1..], NextDepth(json[index], depth), field)
  {
    assert json[index..][1..] == json[index + 1..];
  }

  // Looks at the string literal that closes at `e`: where the value starts if it is the key sought.
  method MatchKey(json: string, index: nat, e: nat, depth: nat, field: string) returns (at: Option<nat>)
    requires index < |json| && json[index] == QUOTE && EndFrom(json, index + 1) == Some(e)
    ensures index < e < |json|
    ensures at == None ==> FindValue(json[index..], depth, field) == FindValue(json[e + 1..], depth, field)
    ensures at.Some? ==> at.value <= |json| && FindValue(json[index..], depth, field) == Some(json[at.value..])
  {
    ScanString(json, index, e, depth, field);
    if depth != 1 { return None; }
    var colon := SkipSpaces(json, e + 1);
    if colon >= |json| || json[colon] != ':' { return None; }
    var key := UnescapeJsonString(json[index + 1..e]);
    assert json[colon..][1..] == json[colon + 1..];
    return if key == field then Some(colon + 1) else None;
  }

  method FindFieldValueStart(json: string, field: string) returns (at: Option<nat>)
    ensures at == None ==> FindValue(json, 0, field) == None
    ensures at.Some? ==> at.value <= |json| && FindValue(json, 0, field) == Some(json[at.value..])
  {
    var depth := 0;
    var index := 0;
    assert json[0..] == json;
    while index < |json|
      invariant index <= |json|
      invariant FindValue(json, 0, field) == FindValue(json[index..], depth, field)
    {
      var c := json[index];
      if c == QUOTE {
        var keyEnd := FindStringEnd(json, index);
        if keyEnd == None {
          ScanUnclosed(json, index, depth, field);
          return None;
        }
        at := MatchKey(json, index, keyEnd.value, depth, field);
        if at != None { return; }
        index := keyEnd.value + 1;
      } else {
        ScanOther(json, index, depth, field);
        if c == '{' {
          depth := depth + 1;
        } else if c == '}' {
          if depth > 0 { depth := depth - 1; }
        }
        index := index + 1;
      }
    }
    return None;
  }

  // The decoded string value of a field.
  function StringField(json: string, field: string): Option<string> {
    match FindValue(json, 0, field)
    case None => None
    case Some(v) =>
      var q := SkipWs(v);
      if q == [] || q[0] != QUOTE then None
      else match StringEnd(q[1..]) case None => None case Some(e) => Some(UnescapeJson(q[1..e + 1]))
  }

  lemma Extend(json: string, a: nat, i: nat)
    requires a <= i < |json|
    ensures json[a..i + 1] == json[a..i] + [json[i]]
    ensures a < i ==> json[a..i + 1] == json[a..i - 1] + [json[i - 1], json[i]]
  {
  }

  // The still escaped text between the quote at `quote` and its closing quote.
  method CollectRaw(json: string, quote: nat) returns (raw: string, end: Option<nat>)
    requires quote < |json|
    ensures end == EndFrom(json, quote + 1)
    ensures end.Some? ==> quote < end.value < |json| && raw == json[quote + 1..end.value]
  {
    raw := [];
    var escaping := false;
    var index := quote + 1;
    while index < |json|
      invariant quote + 1 <= index <= |json|
      invariant escaping ==> index > quote + 1 && json[index - 1] == BACKSLASH
      invariant raw == json[quote + 1..if escaping then index - 1 else index]
      invariant EndFrom(json, quote + 1) == EndFrom(json, if escaping then index - 1 else index)
    {
      var c := json[index];
      Extend(json, quote + 1, index);
      if escaping {
        raw := raw + [BACKSLASH, c];
        escaping := false;
      } else if c == BACKSLASH {
        escaping := true;
      } else if c == QUOTE {
        return raw, Some(index);
      } else {
        raw := raw + [c];
      }
      index := index + 1;
    }
    end := None;
  }

  lemma RawText(json: string, quote: nat)
    requires quote < |json|
    ensures var q := json[quote..]; StringEnd(q[1..]) == match EndFrom(json, quote + 1)
                                      case None => None case Some(e) => Some(e - quote - 1)
    ensures EndFrom(json, quote + 1).Some? ==> var e := EndFrom(json, quote + 1).value;
                                       quote < e < |json| && json[quote..][1..e - quote] == json[quote + 1..e]
  {
    EndFromIsStringEnd(json, quote + 1);
    hide EndFrom, StringEnd;
    assert json[quote..][1..] == json[quote + 1..];
    if EndFrom(json, quote + 1).Some? {
      var e := EndFrom(json, quote + 1).value;
      assert json[quote..][1..e - quote] == json[quote + 1..e];
    }
  }

  method FindStringField(json: string, field: string) returns (out: Option<string>)
    ensures out == StringField(json, field)
  {
    var at := FindFieldValueStart(json, field);
    if at == None { return None; }
    var quote := SkipSpaces(json, at.value);
    if quote >= |json| || json[quote] != QUOTE { return None; }
    RawText(json, quote);
    var raw, end := CollectRaw(json, quote);
    if end == None { return None; }
    var text := UnescapeJsonString(raw);
    return Some(text);
  }

  function Digits(s: string): (d: string)
    ensures AllDigits(d) && d <= s
    ensures |d| < |s| ==> !IsDigit(s[|d|])
  {
    if s == [] || !IsDigit(s[0]) then [] else [s[0]] + Digits(s[1..])
  }

  // Any other maximal run of digits at the front is this one.
  lemma {:induction false} DigitsUnique(d: string, rest: string)
    requires AllDigits(d) && (rest == [] || !IsDigit(rest[0]))
    ensures Digits(d + rest) == d
  {
    if d == [] {
      assert d + rest == rest;
    } else {
      assert (d + rest)[1..] == d[1..] + rest;
      DigitsUnique(d[1..], rest);
    }
  }

  predicate EndsNumber(s: string) {
    var t := SkipWs(s);
    t == [] || t[0] == ',' || t[0] == '}'
  }

  function UintField(json: string, field: string): Option<u64> {
    match FindValue(json, 0, field)
    case None => None
    case Some(v) =>
      var s := SkipWs(v);
      var d := Digits(s);
      if d == [] || !EndsNumber(s[|d|..]) then None else ParseU64(d)
  }

  method ScanDigits(json: string, start: nat) returns (end: nat)
    requires start <= |json|
    ensures start <= end <= |json| && json[start..end] == Digits(json[start..])
  {
    end := start;
    while end < |json| && IsDigit(json[end])
      invariant start <= end <= |json| && AllDigits(json[start..end])
    {
      assert json[start..end + 1] == json[start..end] + [json[end]];
      end := end + 1;
    }
    assert json[start..] == json[start..end] + json[end..];
    DigitsUnique(json[start..end], json[end..]);
  }

  method FindUintField(json: string, field: string) returns (out: Option<u64>)
    ensures out == UintField(json, field)
  {
    var at := FindFieldValueStart(json, field);
    if at == None { return None; }
    var start := SkipSpaces(json, at.value);
    var end := ScanDigits(json, start);
    if end == start { return None; }
    var terminal := SkipSpaces(json, end);
    assert json[start..][end - start..] == json[end..];
    if !(terminal >= |json| || json[terminal] == ',' || json[terminal] == '}') { return None; }
    out := ParseUint64(json[start..end]);
  }
}
