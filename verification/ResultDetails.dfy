// The rest of a printed result: its truth values, and the lists of events and diagnostics.
module ResultDetails {
  import opened Text
  import opened Records
  import opened ActionJson
  import opened ActionResultJson
  import opened ActionObjects

  predicate StartsWith(s: Option<string>, v: string) {
    s.Some? && |s.value| > |v| && s.value[..|v|] == v && s.value[|v|] in {',', '}'}
  }

  lemma ValueStarts(ms: seq<Member>, i: nat)
    requires PlainKeys(ms) && AllPass(ms) && i < |ms|
    requires forall j :: 0 <= j < i ==> ms[j].key != ms[i].key
    ensures StartsWith(FindValue(Object(ms), 0, ms[i].key), ms[i].value)
  {
    hide PlainKeys, AllPass, FindValue, Object;
    ObjectScan(ms, ms[i].key);
    KeyIndexIs(ms, i);
    AfterIsDelimited(ms, i);
    hide After, KeyIndex;
    assert (ms[i].value + After(ms, i))[..|ms[i].value|] == ms[i].value;
  }

  lemma TopValueStarts(r: ActionResult, i: nat)
    requires i < |TOP_KEYS| == |TopMembers(r)|
    ensures StartsWith(FindValue(Json(r), 0, TOP_KEYS[i]), TopMembers(r)[i].value)
  {
    TopMembersPass(r);
    TopKeys(r);
    hide TopMembers, PlainKeys, AllPass;
    ValueStarts(TopMembers(r), i);
  }

  lemma CommandFlagReads(c: CommandDetail)
    ensures StartsWith(FindValue(Object(CommandMembers(c)), 0, "ok"), if c.ok then "true" else "false")
  {
    CommandKeysDiffer(c);
    CommandPasses(c);
    hide PlainKeys, AllPass, StartsWith, FindValue, Object;
    ValueStarts(CommandMembers(c), 1);
  }

  // The scanner stands on the word true or false, and the value ends there.
  lemma FlagsRead(r: ActionResult)
    ensures StartsWith(FindValue(Json(r), 0, "accepted"), if r.accepted then "true" else "false")
    ensures r.command.command != "" ==>
      && ObjectField(Json(r), "command_detail").Some?
      && StartsWith(FindValue(ObjectField(Json(r), "command_detail").value, 0, "ok"),
                    if r.command.ok then "true" else "false")
  {
    CommandIsCutOut(r);
    CommandFlagReads(r.command);
    hide FindValue, StartsWith, Json, ObjectField;
    TopKeys(r);
    TopValueStarts(r, 2);
  }

  // ---- the lists ----

  // The text of one event gives back its day, kind and message.
  predicate TellsEvent(item: string, e: SimulationEvent) {
    && UintField(item, "day") == Some(e.day)
    && StringField(item, "type") == Some(e.kind) && StringField(item, "message") == Some(e.message)
  }

  lemma EventReads(e: SimulationEvent)
    ensures TellsEvent(EventText(e), e)
  {
    var ms := [Member("day", Dec(e.day)), Member("type", Quoted(e.kind)), Member("message", Quoted(e.message))];
    assert EventText(e) == Object(ms);
    assert |"day"| == 3 && |"type"| == 4 && |"message"| == 7;
    ScalarsSkip(e.day, true, 1);
    SkipsPasses(Dec(e.day));
    QuotedPasses(e.kind);
    QuotedPasses(e.message);
    NestedKeysArePlain();
    hide Skips, Passes, Quoted, Dec, Object, FindValue, StringField, UintField, EventText;
    NumberMemberReads(ms, 0, e.day);
    StringMemberReads(ms, 1, e.kind);
    StringMemberReads(ms, 2, e.message);
  }

  predicate TellsDiagnostic(item: string, d: Diagnostic) {
    && StringField(item, "severity") == Some(if d.severity.Warning? then "warning" else "error")
    && StringField(item, "path") == Some(d.path) && StringField(item, "message") == Some(d.message)
  }

  lemma DiagnosticReads(d: Diagnostic)
    ensures TellsDiagnostic(DiagnosticText(d), d)
  {
    SeverityIsPlain(d.severity);
    var name := SeverityName(d.severity);
    var ms := [Member("severity", Quoted(name)), Member("path", Quoted(d.path)), Member("message", Quoted(d.message))];
    assert DiagnosticText(d) == Object(ms);
    assert |"severity"| == 8 && |"path"| == 4 && |"message"| == 7;
    QuotedPasses(name);
    QuotedPasses(d.path);
    QuotedPasses(d.message);
    NestedKeysArePlain();
    hide Skips, Passes, Quoted, Dec, Object, FindValue, StringField, UintField, DiagnosticText;
    StringMemberReads(ms, 0, name);
    StringMemberReads(ms, 1, d.path);
    StringMemberReads(ms, 2, d.message);
  }

  function Bracketed(items: seq<string>): string {
    if items == [] then "[]" else "[" + Join(items, ',') + "]"
  }

  lemma {:induction false} ItemsJoin(items: seq<string>)
    requires items != []
    ensures Items(items) == Join(items, ',')
  {
    if |items| > 1 { ItemsJoin(items[1..]); }
  }

  lemma ListIsBracketed(items: seq<string>)
    ensures List(items) == Bracketed(items)
  {
    if items != [] {
      ItemsJoin(items);
    } else {
      assert "[" + [] + "]" == "[]";
    }
  }

  // The lists hold the events and the diagnostics one by one, in order, each with all its fields.
  lemma ListsRead(r: ActionResult) returns (es: seq<string>, ds: seq<string>)
    ensures |es| == |r.events| && forall i :: 0 <= i < |es| ==> TellsEvent(es[i], r.events[i])
    ensures |ds| == |r.diagnostics| && forall i :: 0 <= i < |ds| ==> TellsDiagnostic(ds[i], r.diagnostics[i])
    ensures StartsWith(FindValue(Json(r), 0, "events_detail"), Bracketed(es))
    ensures StartsWith(FindValue(Json(r), 0, "diagnostics_detail"), Bracketed(ds))
  {
    es, ds := EventItems(r.events), DiagnosticItems(r.diagnostics);
    hide FindValue, StartsWith, Json, TellsEvent, TellsDiagnostic, EventText, DiagnosticText, List, Bracketed;
    forall i | 0 <= i < |es| ensures TellsEvent(es[i], r.events[i]) { EventReads(r.events[i]); }
    forall i | 0 <= i < |ds| ensures TellsDiagnostic(ds[i], r.diagnostics[i]) { DiagnosticReads(r.diagnostics[i]); }
    ListIsBracketed(es);
    ListIsBracketed(ds);
    TopKeys(r);
    TopValueStarts(r, 9);
    TopValueStarts(r, 10);
  }
}
