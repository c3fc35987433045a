// Actions as JSON texts: parsing requests and dispatching them.
module ActionRequests {
  import opened U64
  import opened Text
  import opened ActionJson
  import opened ActionResultJson
  import opened ActionObjects
  import opened Dispatch
  import opened DataRegistry
  import opened Engine

  // ---- parsing ----

  function TrimEnd(s: string): string {
    if s != [] && IsSpace(s[|s| - 1]) then TrimEnd(s[..|s| - 1]) else s
  }

  method TrimCopy(value: string) returns (trimmed: string)
    ensures trimmed == TrimEnd(SkipWs(value))
  {
    var begin := SkipSpaces(value, 0);
    assert value[0..] == value;
    ghost var text := value[begin..];
    var end := |value|;
    assert value[begin..end] == text;
    while begin != end && IsSpace(value[end - 1])
      invariant begin <= end <= |value|
      invariant TrimEnd(value[begin..end]) == TrimEnd(text)
    {
      assert value[begin..end][..end - begin - 1] == value[begin..end - 1];
      end := end - 1;
    }
    return value[begin..end];
  }

  const BLANK := Action("", "", "", "", "", "", 0, 0)

  datatype Parsed = Parsed(action: Action, payload: string, errors: nat)

  // A field that is missing or has the wrong type keeps its default.
  function Str(json: string, field: string): string {
    match StringField(json, field) case Some(v) => v case None => ""
  }

  function Num(json: string, field: string): u64 {
    match UintField(json, field) case Some(n) => n case None => 0
  }

  function ActionIn(text: string, payload: string): Action {
    var inner := if payload == [] then text else payload;
    Action(Str(text, "action_id"), Str(text, "type"), Str(text, "actor_id"), Str(inner, "target_id"),
           Str(inner, "secondary_target_id"), Str(inner, "resource_id"), Num(inner, "amount"), Num(inner, "days"))
  }

  function ParsedAction(json: string): Parsed {
    var text := TrimEnd(SkipWs(json));
    if text == [] || text[0] != '{' || text[|text| - 1] != '}' then Parsed(BLANK, "", 1)
    else
      var payload := match ObjectField(text, "payload") case Some(v) => v case None => "";
      var a := ActionIn(text, payload);
      Parsed(a, payload, Tally(a.actionId == []) + Tally(a.kind == [])
                         + Tally(FindValue(text, 0, "payload").Some? && payload == []))
  }

  method ReadString(json: string, field: string) returns (v: string)
    ensures v == Str(json, field)
  {
    var out := FindStringField(json, field);
    v := match out case Some(found) => found case None => "";
  }

  method ReadNumber(json: string, field: string) returns (n: u64)
    ensures n == Num(json, field)
  {
    var out := FindUintField(json, field);
    n := match out case Some(found) => found case None => 0;
  }

  // The fields of the payload are looked for in the text itself when there is no payload.
  method ParseActionJson(json: string) returns (parsed: Parsed)
    ensures parsed == ParsedAction(json)
  {
    hide Str, Num, ObjectField, FindValue;
    var text := TrimCopy(json);
    if text == [] { return Parsed(BLANK, "", 1); }
    if text[0] != '{' || text[|text| - 1] != '}' { return Parsed(BLANK, "", 1); }
    var actionId := ReadString(text, "action_id");
    var kind := ReadString(text, "type");
    var actorId := ReadString(text, "actor_id");
    var found := FindObjectField(text, "payload");
    var payload := match found case Some(v) => v case None => "";
    var inner := if payload == [] then text else payload;
    var targetId := ReadString(inner, "target_id");
    var secondaryTargetId := ReadString(inner, "secondary_target_id");
    var resourceId := ReadString(inner, "resource_id");
    var amount := ReadNumber(inner, "amount");
    var days := ReadNumber(inner, "days");
    var errors := 0;
    if actionId == [] { errors := errors + 1; }
    if kind == [] { errors := errors + 1; }
    var at := FindFieldValueStart(text, "payload");
    if at != None && payload == [] { errors := errors + 1; }
    var a := Action(actionId, kind, actorId, targetId, secondaryTargetId, resourceId, amount, days);
    parsed := Parsed(a, payload, errors);
  }

  // ---- requests ----

  // The request for an action, as the programs that use the bridge write it: what the action does
  // goes into a payload, and empty fields are left out.
  function TextMember(key: string, v: string): seq<Member> { if v == [] then [] else [Member(key, Quoted(v))] }
  function NumberMember(key: string, n: u64): seq<Member> { if n == 0 then [] else [Member(key, Dec(n))] }

  function Payload(a: Action): seq<Member> {
    TextMember("target_id", a.targetId) + TextMember("secondary_target_id", a.secondaryTargetId)
    + TextMember("resource_id", a.resourceId) + NumberMember("amount", a.amount) + NumberMember("days", a.days)
  }

  function Header(a: Action): seq<Member> {
    TextMember("action_id", a.actionId) + TextMember("type", a.kind) + TextMember("actor_id", a.actorId)
  }

  function Outer(a: Action): seq<Member> { Header(a) + [Member("payload", Object(Payload(a)))] }

  function Request(a: Action): string { Object(Outer(a)) }

  // ---- reading a member of an object whose keys are plain and differ ----

  ghost function Keys(ms: seq<Member>): set<string> { set i | 0 <= i < |ms| :: ms[i].key }

  ghost predicate Clear(ms: seq<Member>) {
    && PlainKeys(ms) && AllPass(ms) && forall i, j :: 0 <= i < j < |ms| ==> ms[i].key != ms[j].key
  }

  ghost predicate Flat(ms: seq<Member>) {
    LevelValues(ms) && forall i :: 0 <= i < |ms| ==> Skips(ms[i].value, 2)
  }

  lemma ClearConcat(a: seq<Member>, b: seq<Member>)
    requires Clear(a) && Clear(b) && Keys(a) !! Keys(b)
    ensures Clear(a + b) && Keys(a + b) == Keys(a) + Keys(b)
    ensures Flat(a) && Flat(b) ==> Flat(a + b)
  {
    hide Passes, PlainKey, Level, Skips;
    var ms := a + b;
    forall i, j | 0 <= i < j < |ms| ensures ms[i].key != ms[j].key {
      if i < |a| <= j { assert a[i].key in Keys(a) && b[j - |a|].key in Keys(b); }
    }
    forall k | k in Keys(a) + Keys(b) ensures k in Keys(ms) {
      if k in Keys(a) {
        var i :| 0 <= i < |a| && a[i].key == k;
        assert ms[i].key == k;
      } else {
        var i :| 0 <= i < |b| && b[i].key == k;
        assert ms[|a| + i].key == k;
      }
    }
  }

  lemma TextIsClear(key: string, v: string)
    requires PlainKey(key)
    ensures Clear(TextMember(key, v)) && Flat(TextMember(key, v))
    ensures Keys(TextMember(key, v)) == if v == [] then {} else {key}
  {
    hide Passes, Level, Skips;
    QuotedPasses(v);
    QuotedSkips(v, 2);
    LevelQuoted(v);
  }

  lemma NumberIsClear(key: string, n: u64)
    requires PlainKey(key)
    ensures Clear(NumberMember(key, n)) && Flat(NumberMember(key, n))
    ensures Keys(NumberMember(key, n)) == if n == 0 then {} else {key}
  {
    hide Passes, Level, Skips;
    ScalarsSkip(n, true, 1);
    SkipsPasses(Dec(n));
    ScalarsSkip(n, true, 2);
    LevelDigits(n);
  }

  lemma AbsentIsNotFound(ms: seq<Member>, key: string)
    requires Clear(ms) && key !in Keys(ms)
    ensures FindValue(Object(ms), 0, key) == None
  {
    assert forall i :: 0 <= i < |ms| ==> ms[i].key in Keys(ms);
    ObjectScan(ms, key);
  }

  lemma TextReads(ms: seq<Member>, key: string, v: string)
    requires Clear(ms) && if v == [] then key !in Keys(ms) else Member(key, Quoted(v)) in ms
    ensures Str(Object(ms), key) == v
  {
    hide PlainKeys, AllPass, FindValue, Object, Quoted;
    if v == [] {
      AbsentIsNotFound(ms, key);
    } else {
      var i :| 0 <= i < |ms| && ms[i] == Member(key, Quoted(v));
      hide StringField;
      StringMemberReads(ms, i, v);
    }
  }

  lemma NumberReadsBack(ms: seq<Member>, key: string, n: u64)
    requires Clear(ms) && if n == 0 then key !in Keys(ms) else Member(key, Dec(n)) in ms
    ensures Num(Object(ms), key) == n
  {
    hide PlainKeys, AllPass, FindValue, Object, Dec;
    if n == 0 {
      AbsentIsNotFound(ms, key);
    } else {
      var i :| 0 <= i < |ms| && ms[i] == Member(key, Dec(n));
      hide UintField;
      NumberMemberReads(ms, i, n);
    }
  }

  // ---- a request parses to its action ----

  lemma RequestKeys()
    ensures PlainKey("action_id") && PlainKey("type") && PlainKey("actor_id") && PlainKey("payload")
    ensures PlainKey("target_id") && PlainKey("secondary_target_id") && PlainKey("resource_id")
    ensures PlainKey("amount") && PlainKey("days")
    ensures |"action_id"| == 9 && |"type"| == 4 && |"actor_id"| == 8 && |"payload"| == 7
    ensures |"target_id"| == 9 && |"secondary_target_id"| == 19 && |"resource_id"| == 11 && |"amount"| == 6
            && |"days"| == 4
  {
  }

  lemma PayloadIsClear(a: Action)
    ensures Clear(Payload(a)) && Flat(Payload(a))
    ensures Keys(Payload(a)) ==
      (if a.targetId == [] then {} else {"target_id"})
      + (if a.secondaryTargetId == [] then {} else {"secondary_target_id"})
      + (if a.resourceId == [] then {} else {"resource_id"}) + (if a.amount == 0 then {} else {"amount"})
      + (if a.days == 0 then {} else {"days"})
  {
    hide Clear, Flat, Keys, TextMember, NumberMember, PlainKey;
    RequestKeys();
    var target, second := TextMember("target_id", a.targetId), TextMember("secondary_target_id", a.secondaryTargetId);
    var resource := TextMember("resource_id", a.resourceId);
    var amount, days := NumberMember("amount", a.amount), NumberMember("days", a.days);
    TextIsClear("target_id", a.targetId);
    TextIsClear("secondary_target_id", a.secondaryTargetId);
    TextIsClear("resource_id", a.resourceId);
    NumberIsClear("amount", a.amount);
    NumberIsClear("days", a.days);
    ClearConcat(target, second);
    ClearConcat(target + second, resource);
    ClearConcat(target + second + resource, amount);
    ClearConcat(target + second + resource + amount, days);
  }

  lemma PayloadReads(a: Action)
    ensures var json := Object(Payload(a));
      && Str(json, "target_id") == a.targetId && Str(json, "secondary_target_id") == a.secondaryTargetId
      && Str(json, "resource_id") == a.resourceId && Num(json, "amount") == a.amount && Num(json, "days") == a.days
  {
    PayloadIsClear(a);
    RequestKeys();
    PayloadHolds(a);
    hide Clear, Flat, Keys, Payload, Str, Num, Object, Quoted, Dec;
    TextReads(Payload(a), "target_id", a.targetId);
    TextReads(Payload(a), "secondary_target_id", a.secondaryTargetId);
    TextReads(Payload(a), "resource_id", a.resourceId);
    NumberReadsBack(Payload(a), "amount", a.amount);
    NumberReadsBack(Payload(a), "days", a.days);
  }

  lemma PayloadHolds(a: Action)
    ensures a.targetId != [] ==> Member("target_id", Quoted(a.targetId)) in Payload(a)
    ensures a.secondaryTargetId != [] ==> Member("secondary_target_id", Quoted(a.secondaryTargetId)) in Payload(a)
    ensures a.resourceId != [] ==> Member("resource_id", Quoted(a.resourceId)) in Payload(a)
    ensures a.amount != 0 ==> Member("amount", Dec(a.amount)) in Payload(a)
    ensures a.days != 0 ==> Member("days", Dec(a.days)) in Payload(a)
  {
    hide Quoted, Dec;
  }

  lemma HeaderIsClear(a: Action)
    ensures Clear(Outer(a))
    ensures Keys(Outer(a)) ==
      (if a.actionId == [] then {} else {"action_id"}) + (if a.kind == [] then {} else {"type"})
      + (if a.actorId == [] then {} else {"actor_id"}) + {"payload"}
  {
    PayloadPasses(a);
    hide Clear, Flat, Keys, TextMember, PlainKey, Payload, Object;
    RequestKeys();
    var id, kind := TextMember("action_id", a.actionId), TextMember("type", a.kind);
    var actor := TextMember("actor_id", a.actorId);
    TextIsClear("action_id", a.actionId);
    TextIsClear("type", a.kind);
    TextIsClear("actor_id", a.actorId);
    ClearConcat(id, kind);
    ClearConcat(id + kind, actor);
    ClearConcat(id + kind + actor, [Member("payload", Object(Payload(a)))]);
  }

  lemma PayloadPasses(a: Action)
    ensures var ms := [Member("payload", Object(Payload(a)))]; Clear(ms) && Keys(ms) == {"payload"}
  {
    PayloadIsClear(a);
    RequestKeys();
    hide Passes, Skips, Level, Object, Payload;
    ObjectSkips(Payload(a), 1);
    SkipsPasses(Object(Payload(a)));
    assert Keys([Member("payload", Object(Payload(a)))]) == {"payload"} by {
      assert [Member("payload", Object(Payload(a)))][0].key == "payload";
    }
  }

  lemma HeaderReads(a: Action)
    ensures Str(Request(a), "action_id") == a.actionId && Str(Request(a), "type") == a.kind
            && Str(Request(a), "actor_id") == a.actorId
  {
    HeaderIsClear(a);
    RequestKeys();
    HeaderHolds(a);
    hide Clear, Flat, Keys, Header, Payload, Str, Num, Object, Quoted, Dec;
    TextReads(Outer(a), "action_id", a.actionId);
    TextReads(Outer(a), "type", a.kind);
    TextReads(Outer(a), "actor_id", a.actorId);
  }

  lemma HeaderHolds(a: Action)
    ensures a.actionId != [] ==> Member("action_id", Quoted(a.actionId)) in Outer(a)
    ensures a.kind != [] ==> Member("type", Quoted(a.kind)) in Outer(a)
    ensures a.actorId != [] ==> Member("actor_id", Quoted(a.actorId)) in Outer(a)
  {
    hide Quoted, Object, Payload;
  }

  lemma PayloadIsCutOut(a: Action)
    ensures ObjectField(Request(a), "payload") == Some(Object(Payload(a)))
    ensures FindValue(Request(a), 0, "payload").Some?
  {
    HeaderIsClear(a);
    PayloadIsClear(a);
    var ms, text := Outer(a), Object(Payload(a));
    var i := |Header(a)|;
    assert ms[i] == Member("payload", text);
    hide Header, Payload, FindValue, CloseFrom, LevelValues, AllPass, PlainKeys, Object, SkipWs, KeyIndex;
    ObjectScan(ms, "payload");
    KeyIndexIs(ms, i);
    ObjectCloses(Payload(a), After(ms, i));
    StartsWithBrace(Payload(a), After(ms, i));
    assert (text + After(ms, i))[..|text|] == text;
  }

  lemma StartsWithBrace(ms: seq<Member>, rest: string)
    ensures var text := Object(ms) + rest; text[0] == '{' && SkipWs(text) == text
    ensures Object(ms)[|Object(ms)| - 1] == '}'
  {
    var text := Object(ms) + rest;
    assert text[0] == '{';
  }

  lemma NothingToTrim(ms: seq<Member>)
    ensures var text := Object(ms);
      text != [] && TrimEnd(SkipWs(text)) == text && text[0] == '{' && text[|text| - 1] == '}'
  {
    StartsWithBrace(ms, []);
    assert Object(ms) + [] == Object(ms);
  }

  // Whatever characters its fields hold, a request parses to exactly its action; only a missing
  // action id or type is complained about.
  lemma RequestParses(a: Action)
    ensures ParsedAction(Request(a)) == Parsed(a, Object(Payload(a)), Tally(a.actionId == []) + Tally(a.kind == []))
  {
    NothingToTrim(Outer(a));
    NothingToTrim(Payload(a));
    hide Header, Payload, Str, Num, ObjectField, FindValue, Object, TrimEnd, SkipWs;
    HeaderReads(a);
    PayloadReads(a);
    PayloadIsCutOut(a);
  }

  // ---- dispatching ----

  function DispatchedJson(e: State, registry: Registry, json: string): State {
    var parsed := ParsedAction(json);
    if parsed.errors > 0 then e else Dispatched(e, registry, parsed.action)
  }

  // A text that cannot be parsed never reaches the engine.
  method DispatchJson(engine: SimulationEngine, json: string) returns (o: Outcome)
    requires engine.Valid()
    modifies engine`currentDay, engine`events, engine.settlements, Stores(engine.settlements)
    ensures engine.Valid()
    ensures engine.View() == DispatchedJson(old(engine.View()), engine.registry, json)
    ensures var parsed := ParsedAction(json);
      if parsed.errors == 0 then Describes(o, old(engine.View()), engine.View(), engine.registry, parsed.action)
      else
        o == Outcome(parsed.action.actionId, parsed.action.kind, Invalid, MalformedJson, parsed.errors, NO_COMMAND, [])
  {
    hide ParsedAction, Dispatched, Describes;
    var parsed := ParseActionJson(json);
    if parsed.errors > 0 {
      return Outcome(parsed.action.actionId, parsed.action.kind, Invalid, MalformedJson, parsed.errors, NO_COMMAND, []);
    }
    o := DispatchAction(engine, parsed.action);
  }

  // Sending an action as text does to the engine exactly what the action does.
  lemma RequestIsCarriedOut(e: State, registry: Registry, a: Action)
    ensures DispatchedJson(e, registry, Request(a)) == Dispatched(e, registry, a)
  {
    hide ParsedAction, Request, DaysLater, Commanded, Object;
    RequestParses(a);
    if a.actionId == [] || a.kind == [] { assert !ValidAction(a); }
  }

  // ---- replies ----

  function StatusText(s: Status): string {
    match s case Accepted => "accepted" case Invalid => "invalid" case Rejected => "rejected"
  }

  function ErrorText(e: ErrorCode): string {
    match e
    case NoError => ""
    case MalformedJson => "malformed_json"
    case InvalidAction => "invalid_action"
    case ActionRejected => "action_rejected"
    case NotAuthorized(reason) => ReasonText(reason)
  }

  function ReasonText(r: Reason): string {
    match r
    case NoReason => "none"
    case Unauthorized => "unauthorized"
    case InvalidTarget => "invalid_target"
    case StaleTarget => "stale_target"
    case InsufficientResource => "insufficient_resource"
    case Conflict => "conflict"
  }

  // The printed reply to an outcome, whatever its message and diagnostics say.
  function Reply(o: Outcome, message: string, diagnostics: seq<Diagnostic>): ActionResult {
    ActionResult(o.actionId, o.kind, o.Ok(), StatusText(o.status), ErrorText(o.error), message, diagnostics,
                 o.command, o.events)
  }

  lemma StatusTextsDiffer(s: Status)
    ensures StatusText(s) == "accepted" <==> s == Accepted
    ensures StatusText(s) == "invalid" <==> s == Invalid
  {
    assert |"accepted"| == 8 && |"invalid"| == 7 && |"rejected"| == 8 && "rejected"[0] == 'r' && "accepted"[0] == 'a';
  }

  // From the printed reply to an action, a client reads which action it answers, whether the engine
  // carried it out, whether it was well formed, and by how many events the log grew.
  lemma ReplyTells(o: Outcome, message: string, diagnostics: seq<Diagnostic>, before: State, after: State,
                   registry: Registry, a: Action)
    requires Describes(o, before, after, registry, a) && |diagnostics| == o.diagnostics
    requires |after.events| <= U64_MAX && |diagnostics| <= U64_MAX
    ensures var json := Json(Reply(o, message, diagnostics));
      && StringField(json, "action_id") == Some(a.actionId) && StringField(json, "type") == Some(a.kind)
      && (StringField(json, "validation_status") == Some("accepted") <==> Succeeds(before, registry, a))
      && (StringField(json, "validation_status") == Some("invalid") <==> !ValidAction(a))
      && StringField(json, "error_code") == Some(ErrorText(o.error))
      && UintField(json, "events") == Some(|after.events| - |before.events|)
  {
    hide ErrorText, Succeeds, ValidAction, StringField, UintField, Json, StatusText, CommandOf, DetailOf;
    var r := Reply(o, message, diagnostics);
    StatusTextsDiffer(o.status);
    IdentityReadsBack(r);
    OutcomeReadsBack(r);
    CountsReadBack(r);
  }

  // And, when a command was run, on what and how much of it.
  lemma ReplyTellsCommand(o: Outcome, message: string, diagnostics: seq<Diagnostic>, before: State, after: State,
                          registry: Registry, a: Action)
    requires Describes(o, before, after, registry, a)
    ensures var piece := ObjectField(Json(Reply(o, message, diagnostics)), "command_detail");
      && (piece.Some? <==> ValidAction(a) && OnResource(a))
      && (piece.Some? ==>
        && StringField(piece.value, "subject_id") == Some(a.targetId)
        && StringField(piece.value, "target_id") == Some(if KindOf(a).Move? then a.secondaryTargetId else "")
        && StringField(piece.value, "resource_id") == Some(a.resourceId)
        && UintField(piece.value, "amount") == Some(a.amount))
  {
    hide Succeeds, ValidAction, StringField, UintField, ObjectField, Json;
    var r := Reply(o, message, diagnostics);
    CommandIsCutOut(r);
    if r.command.command != [] { CommandReadsBack(r); }
  }
}
