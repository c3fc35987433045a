// Nested objects: cutting one out of a text, and reading the command of a printed result back.
module ActionObjects {
  import opened U64
  import opened Text
  import opened ActionJson
  import opened ActionResultJson

  // Where the brace is that closes the `depth` braces open at position i.
  function CloseFrom(json: string, i: nat, depth: nat): (e: Option<nat>)
    ensures e.Some? ==> i <= e.value < |json|
    decreases |json| - i
  {
    if i >= |json| then None
    else if json[i] == QUOTE then AfterString(json, i + 1, depth)
    else if json[i] == '{' then CloseFrom(json, i + 1, depth + 1)
    else if json[i] == '}' then if depth <= 1 then Some(i) else CloseFrom(json, i + 1, depth - 1)
    else CloseFrom(json, i + 1, depth)
  }

  // The same from inside a string literal.
  function AfterString(json: string, i: nat, depth: nat): (e: Option<nat>)
    ensures e.Some? ==> i <= e.value < |json|
    decreases |json| - i
  {
    match EndFrom(json, i)
    case None => None
    case Some(end) => CloseFrom(json, end + 1, depth)
  }

  // The text of a field whose value is an object.
  function ObjectField(json: string, field: string): Option<string> {
    match FindValue(json, 0, field)
    case None => None
    case Some(v) =>
      var q := SkipWs(v);
      if q == [] || q[0] != '{' then None
      else match CloseFrom(q, 0, 0) case None => None case Some(e) => Some(q[..e + 1])
  }

  // Looks for the closing brace of the object that opens at the front of `json`.
  method FindObjectEnd(json: string) returns (end: Option<nat>)
    requires json != [] && json[0] == '{'
    ensures end == CloseFrom(json, 0, 0)
  {
    var depth := 0;
    var inString, escaping := false, false;
    var index := 0;
    while index < |json|
      invariant index <= |json| && depth >= 0 && (if index == 0 then !inString else depth > 0)
      invariant escaping ==> inString && index > 0 && json[index - 1] == BACKSLASH
      invariant CloseFrom(json, 0, 0) ==
        if inString then AfterString(json, if escaping then index - 1 else index, depth)
        else CloseFrom(json, index, depth)
    {
      var c := json[index];
      if inString {
        if escaping {
          escaping := false;
        } else if c == BACKSLASH {
          escaping := true;
        } else if c == QUOTE {
          inString := false;
        }
      } else if c == QUOTE {
        inString := true;
      } else if c == '{' {
        depth := depth + 1;
      } else if c == '}' {
        depth := depth - 1;
        if depth == 0 { return Some(index); }
      }
      index := index + 1;
    }
    return None;
  }

  method FindObjectField(json: string, field: string) returns (out: Option<string>)
    ensures out == ObjectField(json, field)
  {
    var at := FindFieldValueStart(json, field);
    if at == None { return None; }
    var start := SkipSpaces(json, at.value);
    if start >= |json| || json[start] != '{' { return None; }
    var end := FindObjectEnd(json[start..]);
    if end == None { return None; }
    assert json[start..][..end.value + 1] == json[start..start + end.value + 1];
    return Some(json[start..start + end.value + 1]);
  }

  // ---- text without braces of its own ----

  // Reading over the text leaves the number of open braces as it is.
  ghost predicate Level(v: string) {
    forall pre: string, rest: string, depth: nat ::
      CloseFrom(pre + v + rest, |pre|, depth) == CloseFrom(pre + v + rest, |pre + v|, depth)
  }

  lemma LevelConcat(a: string, b: string)
    requires Level(a) && Level(b)
    ensures Level(a + b)
  {
    forall pre: string, rest: string, depth: nat
      ensures CloseFrom(pre + (a + b) + rest, |pre|, depth) == CloseFrom(pre + (a + b) + rest, |pre + (a + b)|, depth)
    {
      assert pre + (a + b) + rest == pre + a + (b + rest) == (pre + a) + b + rest;
      assert |pre + (a + b)| == |(pre + a) + b|;
      hide CloseFrom;
    }
  }

  lemma LevelChar(c: char)
    requires c != QUOTE && c != '{' && c != '}'
    ensures Level([c])
  {
    forall pre: string, rest: string, depth: nat
      ensures CloseFrom(pre + [c] + rest, |pre|, depth) == CloseFrom(pre + [c] + rest, |pre + [c]|, depth)
    {
      assert (pre + [c] + rest)[|pre|] == c;
    }
  }

  lemma {:induction false} LevelPlain(v: string)
    requires forall i :: 0 <= i < |v| ==> v[i] != QUOTE && v[i] != '{' && v[i] != '}'
    ensures Level(v)
  {
    if v == [] {
      forall pre: string, rest: string, depth: nat
        ensures CloseFrom(pre + v + rest, |pre|, depth) == CloseFrom(pre + v + rest, |pre + v|, depth)
      {
        assert |pre + v| == |pre|;
      }
    } else {
      LevelChar(v[0]);
      LevelPlain(v[1..]);
      LevelConcat([v[0]], v[1..]);
      assert [v[0]] + v[1..] == v;
    }
  }

  lemma QuotedInside(pre: string, v: string, rest: string)
    ensures var json := pre + Quoted(v) + rest;
      && json[|pre|] == QUOTE && json[|pre| + 1..] == EscapeJson(v) + ([QUOTE] + rest)
      && |pre + Quoted(v)| == |pre| + 1 + |EscapeJson(v)| + 1
  {
    hide EscapeJson;
  }

  lemma LevelQuoted(v: string)
    ensures Level(Quoted(v))
  {
    hide EndFrom, StringEnd, EscapeJson;
    forall pre: string, rest: string, depth: nat
      ensures CloseFrom(pre + Quoted(v) + rest, |pre|, depth)
              == CloseFrom(pre + Quoted(v) + rest, |pre + Quoted(v)|, depth)
    {
      QuotedInside(pre, v, rest);
      EscapedStringEnds(v, [QUOTE] + rest);
      EndFromIsStringEnd(pre + Quoted(v) + rest, |pre| + 1);
      hide Quoted;
    }
  }

  ghost predicate LevelValues(ms: seq<Member>) {
    forall i :: 0 <= i < |ms| ==> Level(ms[i].value) && PlainKey(ms[i].key)
  }

  lemma LevelMember(m: Member)
    requires Level(m.value) && PlainKey(m.key)
    ensures Level(MemberText(m))
  {
    hide Level;
    PlainKeyIsItself(m.key);
    LevelQuoted(m.key);
    LevelChar(':');
    LevelConcat(Quoted(m.key), ":");
    LevelConcat(Quoted(m.key) + ":", m.value);
  }

  lemma {:induction false} LevelMembers(ms: seq<Member>)
    requires LevelValues(ms)
    ensures Level(Members(ms))
  {
    hide Level;
    if ms == [] {
      LevelPlain([]);
    } else {
      LevelMember(ms[0]);
      if |ms| > 1 {
        LevelMembers(ms[1..]);
        LevelChar(',');
        LevelConcat(MemberText(ms[0]), ",");
        LevelConcat(MemberText(ms[0]) + ",", Members(ms[1..]));
      }
    }
  }

  // An object of such members closes at its own brace, whatever follows.
  lemma ObjectCloses(ms: seq<Member>, rest: string)
    requires LevelValues(ms)
    ensures CloseFrom(Object(ms) + rest, 0, 0) == Some(|Object(ms)| - 1)
  {
    LevelMembers(ms);
    var body := Members(ms);
    var json := Object(ms) + rest;
    assert json == "{" + body + ("}" + rest);
    assert |"{"| == 1 && json[0] == '{' && json[|"{" + body|] == '}';
  }

  // ---- the command of a printed result ----

  lemma CommandLevel(c: CommandDetail)
    ensures LevelValues(CommandMembers(c))
  {
    hide Level, PlainKey, Quoted, Dec, Bool;
    LevelQuoted(c.command);
    LevelQuoted(c.subjectId);
    LevelQuoted(c.targetId);
    LevelQuoted(c.resourceId);
    LevelDigits(c.amount);
    LevelBool(c.ok);
    CommandKeysArePlain(c);
  }

  lemma LevelDigits(n: u64)
    ensures Level(Dec(n))
  {
    var d := Dec(n);
    assert AllDigits(d);
    forall i | 0 <= i < |d| ensures d[i] != QUOTE && d[i] != '{' && d[i] != '}' { assert IsDigit(d[i]); }
    LevelPlain(d);
  }

  lemma LevelBool(b: bool)
    ensures Level(Bool(b))
  {
    LevelPlain(Bool(b));
  }

  lemma CommandIsFound(r: ActionResult)
    ensures FindValue(Json(r), 0, "command_detail") == Some(CommandText(r.command) + After(TopMembers(r), 8))
  {
    TopMembersPass(r);
    TopKeys(r);
    var ms := TopMembers(r);
    ObjectScan(ms, "command_detail");
    assert TOP_KEYS[8] == "command_detail" && ms[8].key == "command_detail" && ms[8].value == CommandText(r.command);
    hide Members, Object, FindValue, TopMembers, PlainKeys, AllPass;
    KeyIndexIs(ms, 8);
  }

  // The object finder returns exactly the printed command, or nothing when no command was run.
  lemma CommandIsCutOut(r: ActionResult)
    ensures ObjectField(Json(r), "command_detail")
            == if r.command.command == [] then None else Some(CommandText(r.command))
  {
    CommandIsFound(r);
    var text, rest := CommandText(r.command), After(TopMembers(r), 8);
    CommandLevel(r.command);
    hide After, Json, FindValue, TopMembers, CommandMembers, CloseFrom, LevelValues;
    if r.command.command == [] {
      assert text[0] == 'n' && SkipWs(text + rest) == text + rest;
    } else {
      ObjectCloses(CommandMembers(r.command), rest);
      assert text[0] == '{' && SkipWs(text + rest) == text + rest;
      assert (text + rest)[..|text|] == text;
    }
  }

  lemma CommandKeysDiffer(c: CommandDetail)
    ensures |CommandMembers(c)| == 6
    ensures forall i, j :: 0 <= i < j < 6 ==> CommandMembers(c)[i].key != CommandMembers(c)[j].key
  {
    hide Quoted, Dec, Bool;
    assert |"command"| == 7 && |"ok"| == 2 && |"subject_id"| == 10 && |"target_id"| == 9 && |"resource_id"| == 11
        && |"amount"| == 6;
  }

  lemma CommandPasses(c: CommandDetail)
    ensures PlainKeys(CommandMembers(c)) && AllPass(CommandMembers(c))
  {
    CommandKeysArePlain(c);
    QuotedPasses(c.command);
    QuotedPasses(c.subjectId);
    QuotedPasses(c.targetId);
    QuotedPasses(c.resourceId);
    ScalarsSkip(c.amount, c.ok, 1);
    SkipsPasses(Dec(c.amount));
    SkipsPasses(Bool(c.ok));
  }

  // And its fields read back from the piece that was cut out.
  lemma CommandReadsBack(r: ActionResult)
    requires r.command.command != []
    ensures ObjectField(Json(r), "command_detail").Some?
    ensures var piece, c := ObjectField(Json(r), "command_detail").value, r.command;
      && StringField(piece, "command") == Some(c.command) && StringField(piece, "subject_id") == Some(c.subjectId)
      && StringField(piece, "target_id") == Some(c.targetId) && StringField(piece, "resource_id") == Some(c.resourceId)
      && UintField(piece, "amount") == Some(c.amount)
  {
    CommandIsCutOut(r);
    var c := r.command;
    var ms := CommandMembers(c);
    CommandKeysDiffer(c);
    CommandPasses(c);
    hide PlainKeys, AllPass, StringField, UintField, ObjectField, Object, Json;
    StringMemberReads(ms, 0, c.command);
    StringMemberReads(ms, 2, c.subjectId);
    StringMemberReads(ms, 3, c.targetId);
    StringMemberReads(ms, 4, c.resourceId);
    NumberMemberReads(ms, 5, c.amount);
  }
}
