// What is read from any request text, and the words a reply answers with.
module ActionTerms {
  import opened U64
  import opened Text
  import opened ActionJson
  import opened ActionResultJson
  import opened ActionObjects
  import opened ActionRequests
  import opened ResultDetails
  import opened JsonTerms
  import opened Dispatch

  // ---- requests ----

  predicate EndsDark(s: string) { s == [] || !IsBlank(s[|s| - 1]) }

  lemma {:induction false} TrimmedEnd(s: string) returns (x: string)
    ensures s == TrimEnd(s) + x && Blank(x) && EndsDark(TrimEnd(s))
  {
    if s != [] && IsSpace(s[|s| - 1]) {
      var rest := TrimmedEnd(s[..|s| - 1]);
      x := rest + [s[|s| - 1]];
      assert s == s[..|s| - 1] + [s[|s| - 1]];
    } else {
      x := [];
    }
  }

  // The text between the blanks at both ends.
  lemma Trimmed(json: string) returns (w: string, t: string, x: string)
    ensures json == w + t + x && Blank(w) && Blank(x) && StartsDark(t) && EndsDark(t) && t == TrimEnd(SkipWs(json))
  {
    w := OnlyBlanksAreSkipped(json);
    x := TrimmedEnd(SkipWs(json));
    t := TrimEnd(SkipWs(json));
    assert SkipWs(json) == t + x;
    if t != [] { assert t[0] == SkipWs(json)[0]; }
  }

  function TextOf(json: string, field: string): string {
    if StringField(json, field).Some? then StringField(json, field).value else ""
  }

  function NumberOf(json: string, field: string): u64 {
    if UintField(json, field).Some? then UintField(json, field).value else 0
  }

  // A text is a request exactly when, between blanks, it is enclosed in braces, has an action id and a type
  // that are not empty, and any payload it has is an object.  What the action does is read from the payload,
  // or else from the text itself; the engine carries it out, and leaves any other text alone.
  lemma ParsesExactly(json: string) returns (w: string, t: string, x: string)
    ensures json == w + t + x && Blank(w) && Blank(x) && StartsDark(t) && EndsDark(t)
    ensures ParsedAction(json).errors == 0 <==>
      && t != "" && t[0] == '{' && t[|t| - 1] == '}'
      && TextOf(t, "action_id") != "" && TextOf(t, "type") != ""
      && (FindValue(t, 0, "payload") == None || ObjectField(t, "payload").Some?)
    ensures ParsedAction(json).errors == 0 ==>
      var a := ParsedAction(json).action;
      var inner := match ObjectField(t, "payload") case Some(o) => o case None => t;
      && a.actionId == TextOf(t, "action_id") && a.kind == TextOf(t, "type") && a.actorId == TextOf(t, "actor_id")
      && a.targetId == TextOf(inner, "target_id") && a.secondaryTargetId == TextOf(inner, "secondary_target_id")
      && a.resourceId == TextOf(inner, "resource_id")
      && a.amount == NumberOf(inner, "amount") && a.days == NumberOf(inner, "days")
    ensures forall e, registry ::
      DispatchedJson(e, registry, json) ==
      (if ParsedAction(json).errors == 0 then Dispatched(e, registry, ParsedAction(json).action) else e)
  {
    w, t, x := Trimmed(json);
    hide TrimEnd, SkipWs, StringField, UintField, FindValue, CloseFrom;
  }

  // ---- replies ----

  // A reply says in words how it went and, if it went wrong, why; and it lists what was logged.
  lemma ReplyAnswers(o: Outcome, message: string, diagnostics: seq<Diagnostic>) returns (es: seq<string>)
    ensures var json := Json(Reply(o, message, diagnostics));
      && StartsWith(FindValue(json, 0, "accepted"), if o.status == Accepted then "true" else "false")
      && StringField(json, "validation_status") ==
           Some(if o.status == Accepted then "accepted" else if o.status == Invalid then "invalid" else "rejected")
      && StringField(json, "error_code") == Some(match o.error {
           case NoError => ""
           case MalformedJson => "malformed_json"
           case InvalidAction => "invalid_action"
           case ActionRejected => "action_rejected"
           case NotAuthorized(NoReason) => "none"
           case NotAuthorized(Unauthorized) => "unauthorized"
           case NotAuthorized(InvalidTarget) => "invalid_target"
           case NotAuthorized(StaleTarget) => "stale_target"
           case NotAuthorized(InsufficientResource) => "insufficient_resource"
           case NotAuthorized(Conflict) => "conflict"
         })
      && StringField(json, "message") == Some(message)
      && StartsWith(FindValue(json, 0, "events_detail"), Bracketed(es))
    ensures |es| == |o.events| && forall i :: 0 <= i < |es| ==> TellsEvent(es[i], o.events[i])
  {
    hide Json, FindValue, StringField, StartsWith, Bracketed, TellsEvent;
    var r := Reply(o, message, diagnostics);
    FlagsRead(r);
    OutcomeReadsBack(r);
    var ds;
    es, ds := ListsRead(r);
  }
}
