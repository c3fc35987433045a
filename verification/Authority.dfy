// Who may perform which action on which settlement.
module Authority {
  import opened U64
  import opened Lookup
  import opened Records
  import opened Storage
  import opened Settlement
  import opened Engine
  import opened Dispatch

  datatype Actor = Actor(
    actorId: string, playerId: string, factionId: string, hostAdmin: bool, toolActor: bool, canAdvanceTime: bool,
    systemActions: seq<string>, resourceIds: seq<string>,
    routeIds: seq<string>, contractIds: seq<string>, factionIds: seq<string>)

  datatype Rule = Rule(
    actionId: string, hostAdminAllowed: bool, toolActorAllowed: bool, factionActorAllowed: bool,
    requireFaction: bool, requireExplicitGrant: bool)

  datatype Policy = Policy(
    maxAge: u64, requireActorMatch: bool, requireOwnedTarget: bool, allowAdminMutation: bool, rules: seq<Rule>)

  const BUILD := "build"
  const TRADE := "trade"
  const DISPATCH_CARAVAN := "dispatch_caravan"
  const ISSUE_CONTRACT := "issue_contract"
  const CHANGE_POLICY := "change_policy"
  const TAX_MARKET := "tax_market"
  const CONTROL_ROUTE := "control_route"
  const INFLUENCE_FACTION := "influence_faction"
  const INJECT_EVENT := "inject_event"
  const ADVANCE_TIME := "advance_time"

  function FactionRule(id: string, explicit: bool): Rule { Rule(id, true, false, true, true, explicit) }

  const DEFAULT_RULES: seq<Rule> := [
    FactionRule(BUILD, true),
    FactionRule(TRADE, false),
    FactionRule(DISPATCH_CARAVAN, true),
    FactionRule(ISSUE_CONTRACT, true),
    FactionRule(CHANGE_POLICY, true),
    FactionRule(TAX_MARKET, true),
    FactionRule(CONTROL_ROUTE, true),
    FactionRule(INFLUENCE_FACTION, true),
    Rule(INJECT_EVENT, true, true, false, false, true),
    FactionRule(ADVANCE_TIME, false)
  ]

  // ---- well-formed actors and policies ----

  predicate NoneEmpty(ids: seq<string>) { forall i :: 0 <= i < |ids| ==> ids[i] != [] }

  function EmptyCount(ids: seq<string>): (n: nat)
    ensures n == 0 <==> NoneEmpty(ids)
  {
    if ids == [] then 0
    else
      assert ids == ids[..|ids| - 1] + [ids[|ids| - 1]];
      EmptyCount(ids[..|ids| - 1]) + Tally(ids[|ids| - 1] == [])
  }

  method CountEmpty(ids: seq<string>) returns (n: nat)
    ensures n == EmptyCount(ids)
  {
    n := 0;
    for i := 0 to |ids|
      invariant n == EmptyCount(ids[..i])
    {
      assert ids[..i + 1][..i] == ids[..i];
      if ids[i] == [] { n := n + 1; }
    }
    assert ids[..|ids|] == ids;
  }

  predicate ValidActor(a: Actor) {
    && a.actorId != [] && a.playerId != [] && (a.factionId != [] || a.hostAdmin || a.toolActor)
    && NoneEmpty(a.resourceIds) && NoneEmpty(a.systemActions)
    && NoneEmpty(a.routeIds) && NoneEmpty(a.contractIds) && NoneEmpty(a.factionIds)
  }

  function ActorErrors(a: Actor): (n: nat)
    ensures n == 0 <==> ValidActor(a)
  {
    Tally(a.actorId == []) + Tally(a.playerId == []) + Tally(a.factionId == [] && !a.hostAdmin && !a.toolActor)
    + EmptyCount(a.resourceIds) + EmptyCount(a.systemActions)
    + EmptyCount(a.routeIds) + EmptyCount(a.contractIds) + EmptyCount(a.factionIds)
  }

  method ValidateActor(a: Actor) returns (errors: nat)
    ensures errors == ActorErrors(a)
  {
    hide EmptyCount;
    var r := CountEmpty(a.resourceIds);
    var s := CountEmpty(a.systemActions);
    var t := CountEmpty(a.routeIds);
    var c := CountEmpty(a.contractIds);
    var f := CountEmpty(a.factionIds);
    errors := r + s + t + c + f;
    if a.actorId == [] { errors := errors + 1; }
    if a.playerId == [] { errors := errors + 1; }
    if a.factionId == [] && !a.hostAdmin && !a.toolActor { errors := errors + 1; }
  }

  // A rule that admits nobody only draws a warning.
  predicate ValidPolicy(p: Policy) {
    p.maxAge > 0 && forall i :: 0 <= i < |p.rules| ==> p.rules[i].actionId != []
  }

  predicate AdmitsNobody(rule: Rule) { !rule.hostAdminAllowed && !rule.toolActorAllowed && !rule.factionActorAllowed }

  function RuleErrors(rules: seq<Rule>): (n: nat)
    ensures n == 0 <==> forall i :: 0 <= i < |rules| ==> rules[i].actionId != []
  {
    if rules == [] then 0
    else
      assert rules == rules[..|rules| - 1] + [rules[|rules| - 1]];
      RuleErrors(rules[..|rules| - 1]) + Tally(rules[|rules| - 1].actionId == [])
  }

  function RuleWarnings(rules: seq<Rule>): nat {
    if rules == [] then 0 else RuleWarnings(rules[..|rules| - 1]) + Tally(AdmitsNobody(rules[|rules| - 1]))
  }

  method ValidatePolicy(p: Policy) returns (errors: nat, warnings: nat)
    ensures errors == Tally(p.maxAge == 0) + RuleErrors(p.rules) && warnings == RuleWarnings(p.rules)
    ensures errors == 0 <==> ValidPolicy(p)
  {
    errors, warnings := if p.maxAge == 0 then 1 else 0, 0;
    for i := 0 to |p.rules|
      invariant errors == Tally(p.maxAge == 0) + RuleErrors(p.rules[..i]) && warnings == RuleWarnings(p.rules[..i])
    {
      assert p.rules[..i + 1][..i] == p.rules[..i];
      var rule := p.rules[i];
      if rule.actionId == [] { errors := errors + 1; }
      if !rule.hostAdminAllowed && !rule.toolActorAllowed && !rule.factionActorAllowed { warnings := warnings + 1; }
    }
    assert p.rules[..|p.rules|] == p.rules;
  }

  // ---- the permission matrix ----

  // The first rule for an action decides.
  function RuleIndex(rules: seq<Rule>, id: string): (i: nat)
    ensures i <= |rules|
    ensures i < |rules| ==> rules[i].actionId == id
    ensures forall k :: 0 <= k < i ==> rules[k].actionId != id
  {
    First(rules, (rule: Rule) => rule.actionId == id)
  }

  // An actor with no list of granted actions is granted them all.
  predicate ActionGranted(a: Actor, id: string) { a.systemActions == [] || id in a.systemActions }

  predicate ResourceGranted(a: Actor, r: string) { a.resourceIds == [] || r in a.resourceIds }

  predicate RuleAdmits(a: Actor, rule: Rule, id: string) {
    || (a.hostAdmin && rule.hostAdminAllowed)
    || (a.toolActor && rule.toolActorAllowed && ActionGranted(a, id))
    || (rule.factionActorAllowed && (rule.requireFaction ==> a.factionId != [])
        && (rule.requireExplicitGrant ==> ActionGranted(a, id)))
  }

  predicate Permitted(a: Actor, rules: seq<Rule>, id: string) {
    var i := RuleIndex(rules, id);
    i < |rules| && RuleAdmits(a, rules[i], id)
  }

  method HasSystemPermission(a: Actor, rules: seq<Rule>, id: string) returns (ok: bool)
    ensures ok == Permitted(a, rules, id)
  {
    var i := 0;
    while i < |rules| && rules[i].actionId != id
      invariant i <= |rules|
      invariant forall k :: 0 <= k < i ==> rules[k].actionId != id
    {
      i := i + 1;
    }
    assert i == RuleIndex(rules, id);
    if i == |rules| { return false; }
    var rule := rules[i];
    if a.hostAdmin && rule.hostAdminAllowed { return true; }
    if a.toolActor && rule.toolActorAllowed && ActionGranted(a, id) { return true; }
    if rule.requireFaction && a.factionId == [] { return false; }
    if !rule.factionActorAllowed { return false; }
    return !rule.requireExplicitGrant || ActionGranted(a, id);
  }

  // Under the default rules the host may do everything in the table, tools only inject events, and
  // faction members trade and advance time freely and do the rest when granted (an empty list grants all).
  lemma DefaultPermissions(a: Actor, id: string)
    ensures Permitted(a, DEFAULT_RULES, id) <==>
      if id == INJECT_EVENT then a.hostAdmin || (a.toolActor && ActionGranted(a, id))
      else if id == TRADE || id == ADVANCE_TIME then a.hostAdmin || a.factionId != []
      else InTable(id) && (a.hostAdmin || (a.factionId != [] && ActionGranted(a, id)))
  {
    NamesDiffer();
    var i := RuleIndex(DEFAULT_RULES, id);
    assert InTable(id) <==> i < |DEFAULT_RULES| by {
      if InTable(id) {
        var k :| 0 <= k < |DEFAULT_RULES| && DEFAULT_RULES[k].actionId == id;
      }
    }
    assert DEFAULT_RULES[8].actionId == INJECT_EVENT && DEFAULT_RULES[1].actionId == TRADE
      && DEFAULT_RULES[9].actionId == ADVANCE_TIME;
  }

  // A rule that asks for an explicit grant gets one from everybody but the host if and only if the
  // actor has a list at all, or is let in as host, or belongs to no class the rule admits.
  lemma GrantIsRequiredExactly(a: Actor, rule: Rule, id: string)
    requires rule.requireExplicitGrant
    ensures (RuleAdmits(a, rule, id) ==> (a.hostAdmin && rule.hostAdminAllowed) || id in a.systemActions)
            <==> a.systemActions != [] || (a.hostAdmin && rule.hostAdminAllowed)
                 || !((a.toolActor && rule.toolActorAllowed)
                      || (rule.factionActorAllowed && (rule.requireFaction ==> a.factionId != [])))
  {
  }

  // An actor of the north, listing nothing, may build.
  lemma UnlistedActorMayBuild()
    ensures var ann := Actor("ann", "ann", "north", false, false, false, [], [], [], [], []);
      ValidActor(ann) && Permitted(ann, DEFAULT_RULES, BUILD) && BUILD !in ann.systemActions
  {
    var ann := Actor("ann", "ann", "north", false, false, false, [], [], [], [], []);
    DefaultPermissions(ann, BUILD);
    NamesDiffer();
    assert DEFAULT_RULES[0].actionId == BUILD && InTable(BUILD);
    assert |BUILD| == 5 && |INJECT_EVENT| == 12 && |ADVANCE_TIME| == 12;
  }

  predicate InTable(id: string) { exists k :: 0 <= k < |DEFAULT_RULES| && DEFAULT_RULES[k].actionId == id }

  lemma NamesDiffer()
    ensures forall i, j :: 0 <= i < j < |DEFAULT_RULES| ==> DEFAULT_RULES[i].actionId != DEFAULT_RULES[j].actionId
  {
    assert |BUILD| == 5 && |TRADE| == 5 && |DISPATCH_CARAVAN| == 16 && |ISSUE_CONTRACT| == 14 && |CHANGE_POLICY| == 13
      && |TAX_MARKET| == 10 && |CONTROL_ROUTE| == 13 && |INFLUENCE_FACTION| == 17 && |INJECT_EVENT| == 12
      && |ADVANCE_TIME| == 12;
    assert BUILD[0] == 'b' && TRADE[0] == 't' && CHANGE_POLICY[1] == 'h' && CONTROL_ROUTE[1] == 'o'
      && INJECT_EVENT[0] == 'i' && ADVANCE_TIME[0] == 'a';
  }

  // ---- reviewing an action ----

  method FindOwner(o: Owners, id: string) returns (faction: string)
    ensures faction == OwnerOf(o, id)
  {
    for i := 0 to |o|
      invariant OwnerOf(o, id) == OwnerOf(o[i..], id)
    {
      assert o[i..][1..] == o[i + 1..];
      if o[i].0 == id { return o[i].1; }
    }
    return "";
  }

  predicate OwnsTarget(o: Owners, id: string, a: Actor) { OwnerOf(o, id) != [] && OwnerOf(o, id) == a.factionId }

  function Rules(p: Policy): seq<Rule> { if p.rules == [] then DEFAULT_RULES else p.rules }

  function StockAt(ss: seq<Settlement>, id: string, r: string): u64 {
    if Has(ss, id) then Amount(ss[Find(ss, id)].storage, r) else 0
  }

  predicate WellFormed(env: Envelope, a: Actor, p: Policy) { ValidEnvelope(env) && ValidActor(a) && ValidPolicy(p) }

  predicate SameActor(env: Envelope, a: Actor, p: Policy) {
    p.requireActorMatch ==> env.action.actorId == a.actorId && env.session.playerId == a.playerId
  }

  predicate Timely(env: Envelope, tick: u64, p: Policy) {
    env.submittedTick <= tick && tick - env.submittedTick <= p.maxAge
  }

  predicate MayAdvance(env: Envelope, a: Actor, p: Policy) {
    KindOf(env.action).Advance? ==> (a.canAdvanceTime || a.hostAdmin) && Permitted(a, Rules(p), ADVANCE_TIME)
  }

  predicate MayTrade(env: Envelope, a: Actor, p: Policy) {
    OnResource(env.action) ==> Permitted(a, Rules(p), TRADE) && ResourceGranted(a, env.action.resourceId)
  }

  predicate TargetsExist(ss: seq<Settlement>, env: Envelope) {
    && (OnResource(env.action) ==> Has(ss, env.action.targetId))
    && (KindOf(env.action).Move? ==> Has(ss, env.action.secondaryTargetId))
  }

  // Only the first target has to be owned; the destination of a transfer need not be.
  predicate TargetOwned(ss: seq<Settlement>, owners: Owners, env: Envelope, a: Actor, p: Policy) {
    && OnResource(env.action) && p.requireOwnedTarget && !(a.hostAdmin && p.allowAdminMutation)
    && Has(ss, env.action.targetId)
    ==> OwnsTarget(owners, env.action.targetId, a)
  }

  predicate StockSuffices(ss: seq<Settlement>, env: Envelope) {
    (KindOf(env.action).Remove? || KindOf(env.action).Move?) && Has(ss, env.action.targetId)
    ==> StockAt(ss, env.action.targetId, env.action.resourceId) >= env.action.amount
  }

  predicate Authorized(ss: seq<Settlement>, tick: u64, owners: Owners, env: Envelope, a: Actor, p: Policy) {
    && WellFormed(env, a, p) && SameActor(env, a, p) && Timely(env, tick, p) && MayAdvance(env, a, p)
    && MayTrade(env, a, p) && TargetsExist(ss, env) && TargetOwned(ss, owners, env, a, p) && StockSuffices(ss, env)
  }

  // The reason given is that of the first check that fails, in the order they are made.
  function ReasonFor(ss: seq<Settlement>, tick: u64, owners: Owners, env: Envelope, a: Actor, p: Policy): Reason {
    if !WellFormed(env, a, p) then Conflict
    else if !SameActor(env, a, p) then Unauthorized
    else if !Timely(env, tick, p) then StaleTarget
    else if !MayAdvance(env, a, p) then Unauthorized
    else if !MayTrade(env, a, p) then Unauthorized
    else if !TargetsExist(ss, env) then InvalidTarget
    else if !TargetOwned(ss, owners, env, a, p) then Unauthorized
    else if !StockSuffices(ss, env) then InsufficientResource
    else NoReason
  }

  function Next(reason: Reason, ok: bool, why: Reason): Reason {
    if reason != NoReason then reason else if ok then NoReason else why
  }

  // ---- how many objections a review raises ----

  function SenderObjections(env: Envelope, a: Actor, p: Policy): nat {
    Tally(p.requireActorMatch && env.action.actorId != a.actorId)
    + Tally(p.requireActorMatch && env.session.playerId != a.playerId)
  }

  function AdvanceObjections(env: Envelope, a: Actor, p: Policy): nat {
    if !KindOf(env.action).Advance? then 0
    else Tally(!a.canAdvanceTime && !a.hostAdmin) + Tally(!Permitted(a, Rules(p), ADVANCE_TIME))
  }

  function TradeObjections(env: Envelope, a: Actor, p: Policy): nat {
    if !OnResource(env.action) then 0
    else Tally(!Permitted(a, Rules(p), TRADE)) + Tally(!ResourceGranted(a, env.action.resourceId))
  }

  function TargetObjections(ss: seq<Settlement>, env: Envelope): nat {
    if !OnResource(env.action) then 0
    else
      Tally(!Has(ss, env.action.targetId))
      + Tally(KindOf(env.action).Move? && !Has(ss, env.action.secondaryTargetId))
  }

  function Objections(ss: seq<Settlement>, tick: u64, owners: Owners, env: Envelope, a: Actor, p: Policy): nat {
    SenderObjections(env, a, p) + Tally(!Timely(env, tick, p)) + AdvanceObjections(env, a, p)
    + TradeObjections(env, a, p) + TargetObjections(ss, env)
    + Tally(!TargetOwned(ss, owners, env, a, p)) + Tally(!StockSuffices(ss, env))
  }

  function FormErrors(env: Envelope, a: Actor, p: Policy): nat {
    EnvelopeErrors(env) + ActorErrors(a) + Tally(p.maxAge == 0) + RuleErrors(p.rules)
  }

  function FormWarnings(env: Envelope, p: Policy): nat { EnvelopeWarnings(env) + RuleWarnings(p.rules) }

  // Malformed requests are not examined further.
  function ReviewMessages(ss: seq<Settlement>, tick: u64, owners: Owners, env: Envelope, a: Actor, p: Policy): nat {
    FormErrors(env, a, p) + FormWarnings(env, p)
    + if WellFormed(env, a, p) then Objections(ss, tick, owners, env, a, p) else 0
  }

  class Review {
    var authorized: bool
    var reason: Reason
    var objections: nat

    constructor ()
      ensures Consistent() && reason == NoReason && objections == 0
    {
      authorized, reason, objections := true, NoReason, 0;
    }

    ghost predicate Consistent()
      reads this
    {
      authorized <==> reason == NoReason
    }

    // The first reason stays.
    method Reject(why: Reason)
      requires Consistent() && why != NoReason
      modifies this
      ensures Consistent() && reason == Next(old(reason), false, why) && objections == old(objections) + 1
    {
      objections := objections + 1;
      if reason == NoReason { reason := why; }
      authorized := false;
    }

    method ReviewSender(env: Envelope, a: Actor, p: Policy)
      requires Consistent()
      modifies this
      ensures Consistent() && reason == Next(old(reason), SameActor(env, a, p), Unauthorized)
      ensures objections == old(objections) + SenderObjections(env, a, p)
    {
      if p.requireActorMatch && env.action.actorId != a.actorId { Reject(Unauthorized); }
      if p.requireActorMatch && env.session.playerId != a.playerId { Reject(Unauthorized); }
    }

    method ReviewTime(tick: u64, env: Envelope, p: Policy)
      requires Consistent()
      modifies this
      ensures Consistent() && reason == Next(old(reason), Timely(env, tick, p), StaleTarget)
      ensures objections == old(objections) + Tally(!Timely(env, tick, p))
    {
      if env.submittedTick > tick {
        Reject(StaleTarget);
      } else if tick - env.submittedTick > p.maxAge {
        Reject(StaleTarget);
      }
    }

    method ReviewAdvance(env: Envelope, a: Actor, p: Policy)
      requires Consistent()
      modifies this
      ensures Consistent() && reason == Next(old(reason), MayAdvance(env, a, p), Unauthorized)
      ensures objections == old(objections) + AdvanceObjections(env, a, p)
    {
      hide Permitted;
      var advancing := KindOf(env.action) == Advance;
      if advancing && !a.canAdvanceTime && !a.hostAdmin { Reject(Unauthorized); }
      var permitted := HasSystemPermission(a, Rules(p), ADVANCE_TIME);
      if advancing && !permitted { Reject(Unauthorized); }
    }

    method ReviewTrade(env: Envelope, a: Actor, p: Policy)
      requires Consistent() && OnResource(env.action)
      modifies this
      ensures Consistent() && reason == Next(old(reason), MayTrade(env, a, p), Unauthorized)
      ensures objections == old(objections) + TradeObjections(env, a, p)
    {
      hide Permitted, ResourceGranted;
      var permitted := HasSystemPermission(a, Rules(p), TRADE);
      if !permitted { Reject(Unauthorized); }
      if !ResourceGranted(a, env.action.resourceId) { Reject(Unauthorized); }
    }

    method ReviewTargets(engine: SimulationEngine, ghost ss: seq<Settlement>, env: Envelope)
      requires ss == Views(engine.settlements) && Consistent() && OnResource(env.action)
      modifies this
      ensures Consistent() && reason == Next(old(reason), TargetsExist(ss, env), InvalidTarget)
      ensures objections == old(objections) + TargetObjections(ss, env)
    {
      var i := engine.FindSettlement(env.action.targetId);
      var j := engine.FindSettlement(env.action.secondaryTargetId);
      if i == |engine.settlements| { Reject(InvalidTarget); }
      if KindOf(env.action) == Move && j == |engine.settlements| { Reject(InvalidTarget); }
    }

    method ReviewOwner(engine: SimulationEngine, ghost ss: seq<Settlement>, owners: Owners, env: Envelope, a: Actor,
                       p: Policy)
      requires ss == Views(engine.settlements) && Consistent() && OnResource(env.action)
      modifies this
      ensures Consistent()
      ensures reason == Next(old(reason), TargetOwned(ss, owners, env, a, p), Unauthorized)
      ensures objections == old(objections) + Tally(!TargetOwned(ss, owners, env, a, p))
    {
      var i := engine.FindSettlement(env.action.targetId);
      if p.requireOwnedTarget && !(a.hostAdmin && p.allowAdminMutation) && i < |engine.settlements| {
        var owner := FindOwner(owners, env.action.targetId);
        if owner == [] || owner != a.factionId { Reject(Unauthorized); }
      }
    }

    method ReviewStock(engine: SimulationEngine, ghost ss: seq<Settlement>, env: Envelope)
      requires ss == Views(engine.settlements) && Consistent() && OnResource(env.action)
      modifies this
      ensures Consistent()
      ensures reason == Next(old(reason), StockSuffices(ss, env), InsufficientResource)
      ensures objections == old(objections) + Tally(!StockSuffices(ss, env))
    {
      if KindOf(env.action) == Remove || KindOf(env.action) == Move {
        var i := engine.FindSettlement(env.action.targetId);
        if i < |engine.settlements| {
          var available := Amount(engine.settlements[i].storage.entries, env.action.resourceId);
          if available < env.action.amount { Reject(InsufficientResource); }
        }
      }
    }
  }

  lemma ReasonIsTheFirst(ss: seq<Settlement>, tick: u64, owners: Owners, env: Envelope, a: Actor, p: Policy)
    ensures !WellFormed(env, a, p) ==> ReasonFor(ss, tick, owners, env, a, p) == Conflict
    ensures WellFormed(env, a, p) ==>
      var first := Next(Next(NoReason, SameActor(env, a, p), Unauthorized), Timely(env, tick, p), StaleTarget);
      var second := Next(Next(first, MayAdvance(env, a, p), Unauthorized), MayTrade(env, a, p), Unauthorized);
      var third := Next(Next(second, TargetsExist(ss, env), InvalidTarget), TargetOwned(ss, owners, env, a, p),
                        Unauthorized);
      ReasonFor(ss, tick, owners, env, a, p) == Next(third, StockSuffices(ss, env), InsufficientResource)
  {
    hide SameActor, Timely, MayAdvance, MayTrade, TargetsExist, TargetOwned, StockSuffices;
  }

  method ReviewAction(engine: SimulationEngine, tick: u64, owners: Owners, env: Envelope, a: Actor, p: Policy)
    returns (authorized: bool, reason: Reason, messages: nat)
    ensures authorized <==> reason == NoReason
    ensures reason == ReasonFor(Views(engine.settlements), tick, owners, env, a, p)
    ensures messages == ReviewMessages(Views(engine.settlements), tick, owners, env, a, p)
  {
    hide WellFormed, SameActor, Timely, MayAdvance, MayTrade, TargetsExist, TargetOwned, StockSuffices, ReasonFor;
    hide SenderObjections, AdvanceObjections, TradeObjections, TargetObjections, FormErrors, FormWarnings;
    var wellFormed, formMessages := CheckForms(env, a, p);
    ghost var ss := Views(engine.settlements);
    if !wellFormed {
      ReasonIsTheFirst(ss, tick, owners, env, a, p);
      return false, Conflict, formMessages;
    }
    var review := new Review();
    review.ReviewSender(env, a, p);
    review.ReviewTime(tick, env, p);
    review.ReviewAdvance(env, a, p);
    if OnResource(env.action) {
      review.ReviewTrade(env, a, p);
      review.ReviewTargets(engine, ss, env);
      review.ReviewOwner(engine, ss, owners, env, a, p);
      review.ReviewStock(engine, ss, env);
    } else {
      OthersNeedNoTarget(ss, owners, env, a, p);
    }
    ReasonIsTheFirst(ss, tick, owners, env, a, p);
    assert Views(engine.settlements) == ss;
    return review.authorized, review.reason, formMessages + review.objections;
  }

  method CheckForms(env: Envelope, a: Actor, p: Policy) returns (ok: bool, messages: nat)
    ensures ok == WellFormed(env, a, p) && messages == FormErrors(env, a, p) + FormWarnings(env, p)
  {
    hide ValidEnvelope, ValidActor, ValidPolicy, EnvelopeErrors, EnvelopeWarnings, ActorErrors, RuleErrors,
         RuleWarnings;
    var e, ew := ValidateEnvelope(env);
    var f := ValidateActor(a);
    var g, gw := ValidatePolicy(p);
    ok := e + f + g == 0;
    messages := e + f + g + ew + gw;
  }

  lemma OthersNeedNoTarget(ss: seq<Settlement>, owners: Owners, env: Envelope, a: Actor, p: Policy)
    requires !OnResource(env.action)
    ensures MayTrade(env, a, p) && TargetsExist(ss, env) && TargetOwned(ss, owners, env, a, p) && StockSuffices(ss, env)
    ensures TradeObjections(env, a, p) == 0 && TargetObjections(ss, env) == 0
  {
  }

  // Every well-formed request that is refused draws an objection, and no other does.
  lemma ObjectionsExactly(ss: seq<Settlement>, tick: u64, owners: Owners, env: Envelope, a: Actor, p: Policy)
    requires WellFormed(env, a, p)
    ensures Objections(ss, tick, owners, env, a, p) == 0 <==> Authorized(ss, tick, owners, env, a, p)
  {
    hide Permitted, ResourceGranted;
  }

  lemma AuthorizedMeansNoReason(ss: seq<Settlement>, tick: u64, owners: Owners, env: Envelope, a: Actor, p: Policy)
    ensures Authorized(ss, tick, owners, env, a, p) <==> ReasonFor(ss, tick, owners, env, a, p) == NoReason
  {
  }
}
