// The percent-style escaping of save-format fields.
module Escaping {
  import opened Text

  function EscapeChar(c: char): string {
    if c == '%' then "%25"
    else if c == TAB then "%09"
    else if c == LF then "%0A"
    else if c == CR then "%0D"
    else [c]
  }

  function Escape(s: string): string {
    if s == [] then [] else EscapeChar(s[0]) + Escape(s[1..])
  }

  lemma {:induction false} EscapeSnoc(s: string, c: char)
    ensures Escape(s + [c]) == Escape(s) + EscapeChar(c)
  {
    if s == [] {
      assert (s + [c])[1..] == [];
    } else {
      assert (s + [c])[1..] == s[1..] + [c];
      EscapeSnoc(s[1..], c);
    }
  }

  lemma {:induction false} EscapeConcat(a: string, b: string)
    ensures Escape(a + b) == Escape(a) + Escape(b)
  {
    if a == [] {
      assert a + b == b;
    } else {
      assert (a + b)[1..] == a[1..] + b;
      EscapeConcat(a[1..], b);
    }
  }

  // Wherever a character stands, the percent sign and the three that would break a line or a field are
  // written as their codes, and every other character as itself.
  lemma EscapesExactly(a: string, c: char, b: string)
    ensures Escape(a + [c] + b) ==
      Escape(a)
      + (match c case '%' => "%25" case '\t' => "%09" case '\n' => "%0A" case '\r' => "%0D" case _ => [c])
      + Escape(b)
  {
    hide Escape;
    EscapeSnoc(a, c);
    EscapeConcat(a + [c], b);
  }

  method EscapeField(value: string) returns (escaped: string)
    ensures escaped == Escape(value)
  {
    escaped := [];
    for i := 0 to |value|
      invariant escaped == Escape(value[..i])
    {
      assert value[..i + 1] == value[..i] + [value[i]];
      EscapeSnoc(value[..i], value[i]);
      match value[i] {
        case '%' => escaped := escaped + "%25";
        case '\t' => escaped := escaped + "%09";
        case '\n' => escaped := escaped + "%0A";
        case '\r' => escaped := escaped + "%0D";
        case c => escaped := escaped + [c];
      }
    }
    assert value[..|value|] == value;
  }

  function HexValue(c: char): int {
    if '0' <= c <= '9' then c as int - '0' as int
    else if 'A' <= c <= 'F' then 10 + c as int - 'A' as int
    else if 'a' <= c <= 'f' then 10 + c as int - 'a' as int
    else -1
  }

  // The text read so far, and how many errors were reported (at most one: it stops the reading).
  datatype Unescaped = Unescaped(text: string, errors: nat)

  function Unescape(s: string): Unescaped {
    if s == [] then Unescaped([], 0)
    else if s[0] != '%' then
      var rest := Unescape(s[1..]);
      rest.(text := [s[0]] + rest.text)
    else if |s| < 3 || HexValue(s[1]) < 0 || HexValue(s[2]) < 0 then Unescaped([], 1)
    else
      var rest := Unescape(s[3..]);
      rest.(text := [(16 * HexValue(s[1]) + HexValue(s[2])) as char] + rest.text)
  }

  method UnescapeField(value: string) returns (r: Unescaped)
    ensures r == Unescape(value)
  {
    var unescaped := [];
    var index := 0;
    assert value[0..] == value;
    while index < |value|
      invariant index <= |value|
      invariant Unescape(value) ==
        var rest := Unescape(value[index..]); rest.(text := unescaped + rest.text)
    {
      ghost var rest := value[index..];
      if value[index] != '%' {
        assert rest[1..] == value[index + 1..];
        unescaped := unescaped + [value[index]];
        index := index + 1;
        continue;
      }
      if index + 2 >= |value| { return Unescaped(unescaped, 1); }
      var high, low := HexValue(value[index + 1]), HexValue(value[index + 2]);
      assert rest[1] == value[index + 1] && rest[2] == value[index + 2];
      if high < 0 || low < 0 { return Unescaped(unescaped, 1); }
      assert rest[3..] == value[index + 3..];
      unescaped := unescaped + [(16 * high + low) as char];
      index := index + 3;
    }
    return Unescaped(unescaped, 0);
  }

  function Prepend(c: char, u: Unescaped): Unescaped { u.(text := [c] + u.text) }

  lemma UnescapeTriplet(high: char, low: char, rest: string)
    requires HexValue(high) >= 0 && HexValue(low) >= 0
    ensures Unescape(['%', high, low] + rest) ==
            Prepend((16 * HexValue(high) + HexValue(low)) as char, Unescape(rest))
  {
    var e := ['%', high, low] + rest;
    assert e[0] == '%' && e[1] == high && e[2] == low && e[3..] == rest;
  }

  lemma UnescapeOne(c: char, rest: string)
    ensures Unescape(EscapeChar(c) + rest) == Prepend(c, Unescape(rest))
  {
    match c {
      case '%' => UnescapeTriplet('2', '5', rest);
      case '\t' => UnescapeTriplet('0', '9', rest);
      case '\n' => UnescapeTriplet('0', 'A', rest);
      case '\r' => UnescapeTriplet('0', 'D', rest);
      case _ =>
        assert ([c] + rest)[0] == c && ([c] + rest)[1..] == rest;
    }
  }

  // Reading back an escaped field gives the field, whatever characters it holds.
  lemma {:induction false} UnescapeEscape(s: string)
    ensures Unescape(Escape(s)) == Unescaped(s, 0)
  {
    if s != [] {
      UnescapeEscape(s[1..]);
      UnescapeOne(s[0], Escape(s[1..]));
      assert s == [s[0]] + s[1..];
    }
  }

  // An escaped field never contains a character that delimits fields or lines.
  lemma {:induction false} EscapeIsClean(s: string)
    ensures Free(Escape(s), TAB) && Free(Escape(s), LF) && Free(Escape(s), CR)
  {
    if s != [] {
      EscapeIsClean(s[1..]);
    }
  }
}
