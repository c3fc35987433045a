// Printing an action result, and reading its fields back with the bridge's own scanner.
module ActionResultJson {
  import opened U64
  import opened Lookup
  import opened Text
  import opened Records
  import opened ActionJson

  datatype Severity = Warning | Error

  datatype Diagnostic = Diagnostic(severity: Severity, path: string, message: string)

  datatype CommandDetail = CommandDetail(
    command: string, ok: bool, subjectId: string, targetId: string, resourceId: string, amount: u64)

  datatype ActionResult = ActionResult(
    actionId: string, kind: string, accepted: bool, validationStatus: string, errorCode: string,
    message: string, diagnostics: seq<Diagnostic>, command: CommandDetail, events: seq<SimulationEvent>)

  // ---- the printed form ----

  // A key and the text of its value.
  datatype Member = Member(key: string, value: string)

  function Quoted(s: string): string { [QUOTE] + EscapeJson(s) + [QUOTE] }

  function Bool(b: bool): string { if b then "true" else "false" }

  // Keys are printed as they stand.
  function MemberText(m: Member): string { [QUOTE] + m.key + [QUOTE] + ":" + m.value }

  function Members(ms: seq<Member>): string {
    if ms == [] then []
    else if |ms| == 1 then MemberText(ms[0])
    else MemberText(ms[0]) + "," + Members(ms[1..])
  }

  function Object(ms: seq<Member>): string { "{" + Members(ms) + "}" }

  function Items(xs: seq<string>): string {
    if xs == [] then [] else if |xs| == 1 then xs[0] else xs[0] + "," + Items(xs[1..])
  }

  function CommandMembers(c: CommandDetail): seq<Member> {
    [Member("command", Quoted(c.command)), Member("ok", Bool(c.ok)),
     Member("subject_id", Quoted(c.subjectId)), Member("target_id", Quoted(c.targetId)),
     Member("resource_id", Quoted(c.resourceId)), Member("amount", Dec(c.amount))]
  }

  function CommandText(c: CommandDetail): string {
    if c.command == [] then "null"
    else Object(CommandMembers(c))
  }

  function EventText(e: SimulationEvent): string {
    Object([Member("day", Dec(e.day)), Member("type", Quoted(e.kind)), Member("message", Quoted(e.message))])
  }

  function SeverityName(s: Severity): string { if s == Warning then "warning" else "error" }

  function DiagnosticText(d: Diagnostic): string {
    Object([Member("severity", [QUOTE] + SeverityName(d.severity) + [QUOTE]), Member("path", Quoted(d.path)),
            Member("message", Quoted(d.message))])
  }

  function EventItems(es: seq<SimulationEvent>): seq<string> {
    seq(|es|, i requires 0 <= i < |es| => EventText(es[i]))
  }

  function DiagnosticItems(ds: seq<Diagnostic>): seq<string> {
    seq(|ds|, i requires 0 <= i < |ds| => DiagnosticText(ds[i]))
  }

  function Identity(r: ActionResult): seq<Member> {
    [Member("action_id", Quoted(r.actionId)), Member("type", Quoted(r.kind)),
     Member("accepted", Bool(r.accepted)), Member("validation_status", Quoted(r.validationStatus)),
     Member("error_code", Quoted(r.errorCode)), Member("message", Quoted(r.message))]
  }

  function Counts(r: ActionResult): seq<Member> {
    [Member("events", Dec(|r.events|)), Member("diagnostics", Dec(|r.diagnostics|))]
  }

  function Details(command: string, events: string, diagnostics: string): seq<Member> {
    [Member("command_detail", command), Member("events_detail", events), Member("diagnostics_detail", diagnostics)]
  }

  function List(xs: seq<string>): string { "[" + Items(xs) + "]" }

  function TopMembers(r: ActionResult): seq<Member> {
    Identity(r) + Counts(r)
    + Details(CommandText(r.command), List(EventItems(r.events)), List(DiagnosticItems(r.diagnostics)))
  }

  function Json(r: ActionResult): string { Object(TopMembers(r)) }

  lemma {:induction false} ItemsSnoc(xs: seq<string>, x: string)
    ensures Items(xs + [x]) == if xs == [] then x else Items(xs) + "," + x
  {
    if |xs| > 0 {
      hide Items;
      var rest := xs[1..];
      assert (xs + [x])[1..] == rest + [x];
      ItemsSnoc(rest, x);
      ItemsCons(xs);
      ItemsCons(xs + [x]);
      if |xs| > 1 { Regroup4(xs[0] + ",", Items(rest), ",", x); }
    }
  }

  lemma ItemsCons(xs: seq<string>)
    requires xs != []
    ensures Items(xs) == if |xs| == 1 then xs[0] else xs[0] + "," + Items(xs[1..])
  {
  }

  lemma Regroup4(a: string, b: string, c: string, d: string)
    ensures a + (b + c + d) == a + b + c + d
  {
  }

  lemma ItemsPrefix(xs: seq<string>, k: nat)
    requires k < |xs|
    ensures Items(xs[..k + 1]) == Items(xs[..k]) + (if k == 0 then "" else ",") + xs[k]
  {
    assert xs[..k + 1] == xs[..k] + [xs[k]];
    ItemsSnoc(xs[..k], xs[k]);
  }

  method PrintItems(xs: seq<string>) returns (output: string)
    ensures output == List(xs)
  {
    output := "[";
    for index := 0 to |xs|
      invariant output == "[" + Items(xs[..index])
    {
      ItemsPrefix(xs, index);
      if index != 0 { output := output + ","; }
      output := output + xs[index];
    }
    assert xs[..|xs|] == xs;
    output := output + "]";
  }

  lemma {:induction false} MembersSnoc(ms: seq<Member>, m: Member)
    ensures Members(ms + [m]) == if ms == [] then MemberText(m) else Members(ms) + "," + MemberText(m)
  {
    if |ms| > 0 {
      hide Members, MemberText;
      var rest := ms[1..];
      assert (ms + [m])[1..] == rest + [m];
      MembersSnoc(rest, m);
      MembersCons(ms);
      MembersCons(ms + [m]);
      if |ms| > 1 { Regroup4(MemberText(ms[0]) + ",", Members(rest), ",", MemberText(m)); }
    }
  }

  lemma MembersCons(ms: seq<Member>)
    requires ms != []
    ensures Members(ms) == if |ms| == 1 then MemberText(ms[0]) else MemberText(ms[0]) + "," + Members(ms[1..])
  {
  }

  method PrintObject(ms: seq<Member>) returns (output: string)
    ensures output == Object(ms)
  {
    output := "{";
    for k := 0 to |ms|
      invariant output == "{" + Members(ms[..k])
    {
      assert ms[..k + 1] == ms[..k] + [ms[k]];
      MembersSnoc(ms[..k], ms[k]);
      if k != 0 { output := output + ","; }
      output := output + MemberText(ms[k]);
    }
    assert ms[..|ms|] == ms;
    output := output + "}";
  }

  method ResultToJson(r: ActionResult) returns (output: string)
    ensures output == Json(r)
  {
    var events := PrintItems(EventItems(r.events));
    var diagnostics := PrintItems(DiagnosticItems(r.diagnostics));
    output := PrintObject(Identity(r) + Counts(r) + Details(CommandText(r.command), events, diagnostics));
  }

  // ---- text the scanner passes over ----

  // Read at depth d, the text `v` leaves the scanner where it was, whatever follows.
  ghost predicate Skips(v: string, d: nat) {
    forall rest, field :: FindValue(v + rest, d, field) == FindValue(rest, d, field)
  }

  lemma SkipsConcat(a: string, b: string, d: nat)
    requires Skips(a, d) && Skips(b, d)
    ensures Skips(a + b, d)
  {
    forall rest, field ensures FindValue(a + b + rest, d, field) == FindValue(rest, d, field) {
      assert a + b + rest == a + (b + rest);
    }
  }

  predicate PlainText(v: string) {
    forall i :: 0 <= i < |v| ==> v[i] != QUOTE && v[i] != '{' && v[i] != '}'
  }

  lemma {:induction false} PlainSkips(v: string, d: nat)
    requires PlainText(v)
    ensures Skips(v, d)
  {
    if v == [] {
      forall rest, field ensures FindValue(v + rest, d, field) == FindValue(rest, d, field) {
        assert v + rest == rest;
      }
    } else {
      PlainSkips(v[1..], d);
      forall rest, field ensures FindValue(v + rest, d, field) == FindValue(rest, d, field) {
        assert (v + rest)[1..] == v[1..] + rest;
      }
    }
  }

  lemma BracesSkip(inner: string, d: nat)
    requires Skips(inner, d + 1)
    ensures Skips("{" + inner + "}", d)
  {
    forall rest, field ensures FindValue("{" + inner + "}" + rest, d, field) == FindValue(rest, d, field) {
      var s := "{" + inner + "}" + rest;
      var t := "}" + rest;
      assert s[1..] == inner + t;
      assert t[1..] == rest;
    }
  }

  lemma EscapedCharScans(c: char, body: string, tail: string)
    ensures StringEnd(EscapeChar(c) + body + tail) == Shift(StringEnd(body + tail), |EscapeChar(c)|)
  {
    var s := EscapeChar(c) + body + tail;
    if |EscapeChar(c)| == 2 {
      assert s[0] == BACKSLASH && s[2..] == body + tail;
    } else {
      assert s[0] == c && s[1..] == body + tail;
    }
  }

  lemma {:induction false} EscapedStringEnds(v: string, tail: string)
    requires tail != [] && tail[0] == QUOTE
    ensures StringEnd(EscapeJson(v) + tail) == Some(|EscapeJson(v)|)
  {
    if v == [] {
      assert EscapeJson(v) + tail == tail;
    } else {
      EscapedStringEnds(v[1..], tail);
      EscapedCharScans(v[0], EscapeJson(v[1..]), tail);
    }
  }

  lemma QuotedParts(body: string, tail: string)
    ensures var q := [QUOTE] + body + [QUOTE] + tail;
            q[1..] == body + ([QUOTE] + tail) && q[1..|body| + 1] == body && q[0] == QUOTE
  {
  }

  // A printed string literal: away from depth 1 it is passed over; at depth 1 it is a key
  // when a colon follows, and otherwise passed over.
  lemma QuotedScans(v: string, d: nat, rest: string, field: string)
    ensures FindValue(Quoted(v) + rest, d, field) ==
            var colon := SkipWs(rest);
            if d == 1 && colon != [] && colon[0] == ':' && v == field then Some(colon[1..])
            else FindValue(rest, d, field)
  {
    var s := Quoted(v) + rest;
    EscapedStringEnds(v, [QUOTE] + rest);
    UnescapeEscape(v);
    QuotedParts(EscapeJson(v), rest);
    assert s[|EscapeJson(v)| + 2..] == rest;
  }

  lemma QuotedSkips(v: string, d: nat)
    requires d != 1
    ensures Skips(Quoted(v), d)
  {
    forall rest, field ensures FindValue(Quoted(v) + rest, d, field) == FindValue(rest, d, field) {
      QuotedScans(v, d, rest, field);
    }
  }

  // Every key of this format is made of small letters and underscores, which need no escaping.
  predicate KeyChar(c: char) { 'a' <= c <= 'z' || c == '_' }

  predicate PlainKey(k: string) { forall i :: 0 <= i < |k| ==> KeyChar(k[i]) }

  lemma PlainCharIsItself(c: char)
    requires KeyChar(c)
    ensures EscapeChar(c) == [c]
  {
  }

  lemma {:induction false} PlainKeyIsItself(k: string)
    requires PlainKey(k)
    ensures EscapeJson(k) == k
  {
    if k != [] {
      PlainKeyIsItself(k[1..]);
      PlainCharIsItself(k[0]);
      hide EscapeChar, KeyChar;
      assert k == [k[0]] + k[1..];
    }
  }

  ghost predicate PlainKeys(ms: seq<Member>) { forall i :: 0 <= i < |ms| ==> PlainKey(ms[i].key) }

  // ---- nested objects and lists are passed over ----

  lemma NestedMemberSkips(m: Member, d: nat)
    requires d > 1 && PlainKey(m.key) && Skips(m.value, d)
    ensures Skips(MemberText(m), d)
  {
    PlainKeyIsItself(m.key);
    QuotedSkips(m.key, d);
    PlainSkips(":", d);
    SkipsConcat(Quoted(m.key), ":", d);
    SkipsConcat(Quoted(m.key) + ":", m.value, d);
  }

  lemma {:induction false} NestedMembersSkip(ms: seq<Member>, d: nat)
    requires d > 1 && PlainKeys(ms)
    requires forall i :: 0 <= i < |ms| ==> Skips(ms[i].value, d)
    ensures Skips(Members(ms), d)
  {
    if ms == [] {
      PlainSkips([], d);
    } else {
      NestedMemberSkips(ms[0], d);
      if |ms| > 1 {
        NestedMembersSkip(ms[1..], d);
        PlainSkips(",", d);
        SkipsConcat(MemberText(ms[0]), ",", d);
        SkipsConcat(MemberText(ms[0]) + ",", Members(ms[1..]), d);
      }
    }
  }

  lemma {:induction false} ItemsSkip(xs: seq<string>, d: nat)
    requires forall i :: 0 <= i < |xs| ==> Skips(xs[i], d)
    ensures Skips(Items(xs), d)
  {
    if xs == [] {
      PlainSkips([], d);
    } else if |xs| > 1 {
      ItemsSkip(xs[1..], d);
      PlainSkips(",", d);
      SkipsConcat(xs[0], ",", d);
      SkipsConcat(xs[0] + ",", Items(xs[1..]), d);
    }
  }

  lemma ListSkips(xs: seq<string>, d: nat)
    requires forall i :: 0 <= i < |xs| ==> Skips(xs[i], d)
    ensures Skips(List(xs), d)
  {
    ItemsSkip(xs, d);
    PlainSkips("[", d);
    PlainSkips("]", d);
    SkipsConcat("[", Items(xs), d);
    SkipsConcat("[" + Items(xs), "]", d);
  }

  // ---- members of the outer object ----

  // What may follow a member's value.
  predicate Delimited(rest: string) { rest != [] && (rest[0] == ',' || rest[0] == '}') }

  // Read at depth 1, the value `v` is passed over when a delimiter follows.
  ghost predicate Passes(v: string) {
    forall rest, field :: Delimited(rest) ==> FindValue(v + rest, 1, field) == FindValue(rest, 1, field)
  }

  lemma QuotedPasses(v: string)
    ensures Passes(Quoted(v))
  {
    forall rest, field | Delimited(rest)
      ensures FindValue(Quoted(v) + rest, 1, field) == FindValue(rest, 1, field)
    {
      QuotedScans(v, 1, rest, field);
    }
  }

  lemma ColonPasses(s: string, field: string)
    ensures FindValue(":" + s, 1, field) == FindValue(s, 1, field)
  {
    assert (":" + s)[1..] == s;
  }

  lemma KeyScans(m: Member, rest: string, field: string)
    requires PlainKey(m.key) && Passes(m.value) && Delimited(rest)
    ensures FindValue(MemberText(m) + rest, 1, field) ==
            if m.key == field then Some(m.value + rest) else FindValue(rest, 1, field)
  {
    hide FindValue;
    var tail := ":" + m.value + rest;
    PlainKeyIsItself(m.key);
    assert MemberText(m) + rest == Quoted(m.key) + tail;
    QuotedScans(m.key, 1, tail, field);
    assert SkipWs(tail) == tail;
    assert tail[1..] == m.value + rest && tail == ":" + (m.value + rest);
    ColonPasses(m.value + rest, field);
  }

  // What follows member i inside the object.
  function After(ms: seq<Member>, i: nat): string
    requires i < |ms|
  {
    if i == |ms| - 1 then "}" else "," + Members(ms[i + 1..]) + "}"
  }

  function KeyIndex(ms: seq<Member>, field: string): (i: nat)
    ensures i <= |ms|
    ensures i < |ms| ==> ms[i].key == field
    ensures forall j :: 0 <= j < i ==> ms[j].key != field
  {
    First(ms, (m: Member) => m.key == field)
  }

  ghost predicate AllPass(ms: seq<Member>) { forall i :: 0 <= i < |ms| ==> Passes(ms[i].value) }

  // What the scanner must answer for a field of an object with these members.
  function Answer(ms: seq<Member>, field: string): Option<string> {
    var i := KeyIndex(ms, field);
    if i < |ms| then Some(ms[i].value + After(ms, i)) else None
  }

  lemma Regroup(a: string, b: string)
    ensures a + "," + b + "}" == a + ("," + b + "}") && ("," + b + "}")[1..] == b + "}"
  {
  }

  lemma AfterFirst(ms: seq<Member>)
    requires |ms| > 1
    ensures Members(ms) + "}" == MemberText(ms[0]) + After(ms, 0)
    ensures After(ms, 0)[1..] == Members(ms[1..]) + "}"
  {
    var a, b := MemberText(ms[0]), Members(ms[1..]);
    assert Members(ms) == a + "," + b && After(ms, 0) == "," + b + "}";
    Regroup(a, b);
  }

  lemma AnswerCons(ms: seq<Member>, field: string)
    requires |ms| > 1
    ensures Answer(ms, field) == if ms[0].key == field then Some(ms[0].value + After(ms, 0)) else Answer(ms[1..], field)
  {
    hide Members;
    var i := KeyIndex(ms[1..], field);
    if i < |ms| - 1 { assert ms[1..][i + 1..] == ms[i + 2..]; }
  }

  lemma {:induction false} MembersScan(ms: seq<Member>, field: string)
    requires PlainKeys(ms) && AllPass(ms)
    ensures FindValue(Members(ms) + "}", 1, field) == Answer(ms, field)
  {
    assert "}"[1..] == [];
    if ms == [] {
      assert [] + "}" == "}";
    } else {
      KeyScans(ms[0], After(ms, 0), field);
      if |ms| == 1 {
        assert ms[1..] == [];
      } else {
        AfterFirst(ms);
        AnswerCons(ms, field);
        MembersScan(ms[1..], field);
      }
    }
  }

  // The scanner finds exactly the members of the outer object.
  lemma ObjectScan(ms: seq<Member>, field: string)
    requires PlainKeys(ms) && AllPass(ms)
    ensures FindValue(Object(ms), 0, field) == Answer(ms, field)
  {
    MembersScan(ms, field);
    assert Object(ms)[1..] == Members(ms) + "}";
  }

  // ---- the printed result reads back ----

  lemma SkipsPasses(v: string)
    requires Skips(v, 1)
    ensures Passes(v)
  {
  }

  lemma ObjectSkips(ms: seq<Member>, d: nat)
    requires d > 0 && PlainKeys(ms)
    requires forall i :: 0 <= i < |ms| ==> Skips(ms[i].value, d + 1)
    ensures Skips(Object(ms), d)
  {
    NestedMembersSkip(ms, d + 1);
    BracesSkip(Members(ms), d);
  }

  lemma NestedKeysArePlain()
    ensures PlainKey("command") && PlainKey("ok") && PlainKey("subject_id") && PlainKey("target_id")
    ensures PlainKey("resource_id") && PlainKey("amount")
    ensures PlainKey("day") && PlainKey("type") && PlainKey("message") && PlainKey("severity") && PlainKey("path")
  {
  }

  lemma ScalarsSkip(n: nat, b: bool, d: nat)
    ensures Skips(Dec(n), d) && Skips(Bool(b), d) && Skips("null", d)
  {
    var digits := Dec(n);
    assert forall i :: 0 <= i < |digits| ==> IsDigit(digits[i]);
    PlainSkips(digits, d);
    PlainSkips(Bool(b), d);
    PlainSkips("null", d);
  }

  lemma CommandKeysArePlain(c: CommandDetail)
    ensures PlainKeys(CommandMembers(c))
  {
  }

  lemma CommandValuesSkip(c: CommandDetail)
    ensures var ms := CommandMembers(c); forall i :: 0 <= i < |ms| ==> Skips(ms[i].value, 2)
  {
    ScalarsSkip(c.amount, c.ok, 2);
    QuotedSkips(c.command, 2);
    QuotedSkips(c.subjectId, 2);
    QuotedSkips(c.targetId, 2);
    QuotedSkips(c.resourceId, 2);
  }

  lemma CommandSkips(c: CommandDetail)
    ensures Skips(CommandText(c), 1)
  {
    if c.command == [] {
      ScalarsSkip(0, true, 1);
    } else {
      CommandKeysArePlain(c);
      CommandValuesSkip(c);
      ObjectSkips(CommandMembers(c), 1);
    }
  }

  lemma EventSkips(e: SimulationEvent)
    ensures Skips(EventText(e), 1)
  {
    ScalarsSkip(e.day, true, 2);
    QuotedSkips(e.kind, 2);
    QuotedSkips(e.message, 2);
    NestedKeysArePlain();
    ObjectSkips([Member("day", Dec(e.day)), Member("type", Quoted(e.kind)), Member("message", Quoted(e.message))], 1);
  }

  lemma SeverityIsPlain(s: Severity)
    ensures EscapeJson(SeverityName(s)) == SeverityName(s)
  {
    PlainKeyIsItself(SeverityName(s));
  }

  lemma DiagnosticSkips(x: Diagnostic)
    ensures Skips(DiagnosticText(x), 1)
  {
    SeverityIsPlain(x.severity);
    QuotedSkips(SeverityName(x.severity), 2);
    QuotedSkips(x.path, 2);
    QuotedSkips(x.message, 2);
    NestedKeysArePlain();
    ObjectSkips([Member("severity", Quoted(SeverityName(x.severity))), Member("path", Quoted(x.path)),
                 Member("message", Quoted(x.message))], 1);
  }

  lemma IdentityKeysArePlain(r: ActionResult)
    ensures PlainKeys(Identity(r))
  {
    IdentityKeys();
    OutcomeKeys();
    hide PlainKey;
  }

  lemma IdentityKeys()
    ensures PlainKey("action_id") && PlainKey("type") && PlainKey("accepted")
  {
  }

  lemma OutcomeKeys()
    ensures PlainKey("validation_status") && PlainKey("error_code") && PlainKey("message")
  {
  }

  lemma IdentityPasses(r: ActionResult)
    ensures AllPass(Identity(r))
  {
    QuotedPasses(r.actionId);
    QuotedPasses(r.kind);
    QuotedPasses(r.validationStatus);
    QuotedPasses(r.errorCode);
    QuotedPasses(r.message);
    ScalarsSkip(0, r.accepted, 1);
    SkipsPasses(Bool(r.accepted));
  }

  lemma CountsPass(r: ActionResult)
    ensures AllPass(Counts(r)) && PlainKeys(Counts(r))
  {
    ScalarsSkip(|r.events|, true, 1);
    ScalarsSkip(|r.diagnostics|, true, 1);
    SkipsPasses(Dec(|r.events|));
    SkipsPasses(Dec(|r.diagnostics|));
  }

  lemma DetailsPass(command: string, events: string, diagnostics: string)
    requires Skips(command, 1) && Skips(events, 1) && Skips(diagnostics, 1)
    ensures AllPass(Details(command, events, diagnostics)) && PlainKeys(Details(command, events, diagnostics))
  {
    SkipsPasses(command);
    SkipsPasses(events);
    SkipsPasses(diagnostics);
  }

  lemma ListsSkip(r: ActionResult)
    ensures Skips(List(EventItems(r.events)), 1) && Skips(List(DiagnosticItems(r.diagnostics)), 1)
  {
    forall i | 0 <= i < |r.events| ensures Skips(EventItems(r.events)[i], 1) { EventSkips(r.events[i]); }
    ListSkips(EventItems(r.events), 1);
    forall i | 0 <= i < |r.diagnostics| ensures Skips(DiagnosticItems(r.diagnostics)[i], 1) {
      DiagnosticSkips(r.diagnostics[i]);
    }
    ListSkips(DiagnosticItems(r.diagnostics), 1);
  }

  lemma MembersConcat(a: seq<Member>, b: seq<Member>)
    requires AllPass(a) && PlainKeys(a) && AllPass(b) && PlainKeys(b)
    ensures AllPass(a + b) && PlainKeys(a + b)
  {
  }

  lemma TopMembersPass(r: ActionResult)
    ensures AllPass(TopMembers(r)) && PlainKeys(TopMembers(r))
  {
    var details := Details(CommandText(r.command), List(EventItems(r.events)), List(DiagnosticItems(r.diagnostics)));
    IdentityPasses(r);
    IdentityKeysArePlain(r);
    CountsPass(r);
    CommandSkips(r.command);
    ListsSkip(r);
    DetailsPass(CommandText(r.command), List(EventItems(r.events)), List(DiagnosticItems(r.diagnostics)));
    MembersConcat(Identity(r), Counts(r));
    MembersConcat(Identity(r) + Counts(r), details);
  }

  lemma AfterIsDelimited(ms: seq<Member>, i: nat)
    requires i < |ms|
    ensures Delimited(After(ms, i))
  {
  }

  // The position of a key among distinct keys.
  lemma KeyIndexIs(ms: seq<Member>, i: nat)
    requires i < |ms| && forall j :: 0 <= j < i ==> ms[j].key != ms[i].key
    ensures KeyIndex(ms, ms[i].key) == i
  {
  }

  lemma QuotedReads(v: string, tail: string)
    ensures var q := Quoted(v) + tail;
            SkipWs(q) == q && q[0] == QUOTE && StringEnd(q[1..]) == Some(|EscapeJson(v)|)
            && UnescapeJson(q[1..|EscapeJson(v)| + 1]) == v
  {
    QuotedParts(EscapeJson(v), tail);
    EscapedStringEnds(v, [QUOTE] + tail);
    UnescapeEscape(v);
  }

  lemma StringMemberReads(ms: seq<Member>, i: nat, v: string)
    requires PlainKeys(ms) && AllPass(ms) && i < |ms| && ms[i].value == Quoted(v)
    requires forall j :: 0 <= j < i ==> ms[j].key != ms[i].key
    ensures StringField(Object(ms), ms[i].key) == Some(v)
  {
    ObjectScan(ms, ms[i].key);
    KeyIndexIs(ms, i);
    QuotedReads(v, After(ms, i));
  }

  lemma NumberMemberReads(ms: seq<Member>, i: nat, n: u64)
    requires PlainKeys(ms) && AllPass(ms) && i < |ms| && ms[i].value == Dec(n)
    requires forall j :: 0 <= j < i ==> ms[j].key != ms[i].key
    ensures UintField(Object(ms), ms[i].key) == Some(n)
  {
    hide PlainKeys, AllPass, FindValue, Object, After, KeyIndex, Digits, EndsNumber, SkipWs, Dec, ParseU64, Delimited;
    ObjectScan(ms, ms[i].key);
    KeyIndexIs(ms, i);
    AfterIsDelimited(ms, i);
    NumberReads(n, After(ms, i));
  }

  lemma NumberReads(n: u64, tail: string)
    requires Delimited(tail)
    ensures var s := Dec(n) + tail; SkipWs(s) == s && Digits(s) == Dec(n) && EndsNumber(s[|Dec(n)|..])
    ensures Dec(n) != [] && ParseU64(Dec(n)) == Some(n)
  {
    var d := Dec(n);
    var s := d + tail;
    assert IsDigit(s[0]);
    hide Dec, Digits;
    DigitsUnique(d, tail);
    assert s[|d|..] == tail;
    ParseDec(n);
  }

  const TOP_KEYS := ["action_id", "type", "accepted", "validation_status", "error_code", "message", "events",
                     "diagnostics", "command_detail", "events_detail", "diagnostics_detail"]

  lemma TopKeys(r: ActionResult)
    ensures |TopMembers(r)| == |TOP_KEYS| && forall i :: 0 <= i < |TOP_KEYS| ==> TopMembers(r)[i].key == TOP_KEYS[i]
    ensures forall i, j :: 0 <= i < j < |TOP_KEYS| ==> TOP_KEYS[i] != TOP_KEYS[j]
  {
    hide Quoted, List, Dec, Bool, CommandText, EventItems, DiagnosticItems;
    KeyLengths();
  }

  // No two of the outer keys are even equally long.
  const KEY_LENGTHS := [9, 4, 8, 17, 10, 7, 6, 11, 14, 13, 18]

  lemma KeyLengths()
    ensures |TOP_KEYS| == |KEY_LENGTHS| && forall i :: 0 <= i < |TOP_KEYS| ==> |TOP_KEYS[i]| == KEY_LENGTHS[i]
    ensures forall i, j :: 0 <= i < j < |KEY_LENGTHS| ==> KEY_LENGTHS[i] != KEY_LENGTHS[j]
  {
  }

  lemma TopStringReads(r: ActionResult, i: nat, key: string, v: string)
    requires i < |TOP_KEYS| == |TopMembers(r)| && TopMembers(r)[i] == Member(key, Quoted(v))
    ensures StringField(Json(r), key) == Some(v)
  {
    TopMembersPass(r);
    TopKeys(r);
    StringMemberReads(TopMembers(r), i, v);
  }

  lemma TopNumberReads(r: ActionResult, i: nat, key: string, n: u64)
    requires i < |TOP_KEYS| == |TopMembers(r)| && TopMembers(r)[i] == Member(key, Dec(n))
    ensures UintField(Json(r), key) == Some(n)
  {
    TopMembersPass(r);
    TopKeys(r);
    NumberMemberReads(TopMembers(r), i, n);
  }

  // Whatever the strings hold, the scanner reads back the strings that were printed.
  lemma IdentityReadsBack(r: ActionResult)
    ensures StringField(Json(r), "action_id") == Some(r.actionId)
    ensures StringField(Json(r), "type") == Some(r.kind)
  {
    TopStringReads(r, 0, "action_id", r.actionId);
    TopStringReads(r, 1, "type", r.kind);
  }

  lemma OutcomeReadsBack(r: ActionResult)
    ensures StringField(Json(r), "validation_status") == Some(r.validationStatus)
    ensures StringField(Json(r), "error_code") == Some(r.errorCode)
    ensures StringField(Json(r), "message") == Some(r.message)
  {
    TopStringReads(r, 3, "validation_status", r.validationStatus);
    TopStringReads(r, 4, "error_code", r.errorCode);
    TopStringReads(r, 5, "message", r.message);
  }

  lemma CountsReadBack(r: ActionResult)
    requires |r.events| <= U64_MAX && |r.diagnostics| <= U64_MAX
    ensures UintField(Json(r), "events") == Some(|r.events|)
    ensures UintField(Json(r), "diagnostics") == Some(|r.diagnostics|)
  {
    TopNumberReads(r, 6, "events", |r.events|);
    TopNumberReads(r, 7, "diagnostics", |r.diagnostics|);
  }

  // A field is found exactly when it is one of the outer keys, however deep its name occurs inside.
  lemma OnlyOuterKeysAreFound(r: ActionResult, field: string)
    ensures FindValue(Json(r), 0, field).Some? <==> field in TOP_KEYS
  {
    TopMembersPass(r);
    TopKeys(r);
    var ms := TopMembers(r);
    ObjectScan(ms, field);
    var i := KeyIndex(ms, field);
    if i < |ms| { assert TOP_KEYS[i] == field; }
    if field in TOP_KEYS {
      var j :| 0 <= j < |TOP_KEYS| && TOP_KEYS[j] == field;
      assert ms[j].key == field;
    }
  }
}
