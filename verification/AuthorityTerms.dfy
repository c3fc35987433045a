// The gate's verdict on every entry of a log, told from the fields of the request, the actor and the policy.
module AuthorityTerms {
  import opened U64
  import opened Records
  import opened Settlement
  import opened Engine
  import opened Dispatch
  import opened Authority
  import opened Replay

  predicate Trades(a: Action) { a.kind in {"add_resource", "remove_resource", "transfer_resource"} }

  predicate Formed(a: Action) {
    && a.actionId != ""
    && (Trades(a) || a.kind == "advance_days")
    && (Trades(a) ==> a.targetId != "" && a.resourceId != "" && a.amount > 0)
    && (a.kind == "transfer_resource" ==> a.secondaryTargetId != "")
    && (a.kind == "advance_days" ==> a.days > 0)
  }

  // The request, the actor and the policy are complete.
  predicate Complete(x: Entry, p: Policy) {
    var env, a := x.envelope, x.actor;
    && env.sequence > 0 && env.shardId != "" && env.session.playerId != "" && env.session.sessionId != ""
    && Formed(env.action)
    && a.actorId != "" && a.playerId != "" && (a.factionId == "" ==> a.hostAdmin || a.toolActor)
    && "" !in a.resourceIds && "" !in a.systemActions
    && "" !in a.routeIds && "" !in a.contractIds && "" !in a.factionIds
    && p.maxAge > 0 && forall rule <- p.rules :: rule.actionId != ""
  }

  // Sent by the actor it names, from that actor's session, where this is asked for.
  predicate InOwnName(x: Entry, p: Policy) {
    p.requireActorMatch ==>
      x.envelope.action.actorId == x.actor.actorId && x.envelope.session.playerId == x.actor.playerId
  }

  predicate InTime(x: Entry, tick: u64, p: Policy) {
    x.envelope.submittedTick <= tick <= x.envelope.submittedTick + p.maxAge
  }

  predicate Lets(rule: Rule, a: Actor, id: string) {
    var granted := |a.systemActions| == 0 || id in a.systemActions;
    || (a.hostAdmin && rule.hostAdminAllowed)
    || (a.toolActor && rule.toolActorAllowed && granted)
    || (rule.factionActorAllowed && !(rule.requireFaction && a.factionId == "")
        && (granted || !rule.requireExplicitGrant))
  }

  // The first rule for the action lets the actor; where there are no rules, hosts and faction members.
  predicate Granted(a: Actor, p: Policy, id: string) {
    if |p.rules| == 0 then a.hostAdmin || a.factionId != ""
    else exists i :: 0 <= i < |p.rules| && p.rules[i].actionId == id && Lets(p.rules[i], a, id)
                     && forall k :: 0 <= k < i ==> p.rules[k].actionId != id
  }

  predicate TimeGranted(x: Entry, p: Policy) {
    x.envelope.action.kind == "advance_days" ==>
      (x.actor.canAdvanceTime || x.actor.hostAdmin) && Granted(x.actor, p, "advance_time")
  }

  predicate TradeGranted(x: Entry, p: Policy) {
    Trades(x.envelope.action) ==>
      && Granted(x.actor, p, "trade")
      && (|x.actor.resourceIds| == 0 || x.envelope.action.resourceId in x.actor.resourceIds)
  }

  predicate FirstWithId(ss: seq<Settlement>, id: string, i: nat) {
    i < |ss| && ss[i].id == id && forall k :: 0 <= k < i ==> ss[k].id != id
  }

  predicate Aimed(ss: seq<Settlement>, x: Entry) {
    var a := x.envelope.action;
    && (Trades(a) ==> exists s :: s in ss && s.id == a.targetId)
    && (a.kind == "transfer_resource" ==> exists s :: s in ss && s.id == a.secondaryTargetId)
  }

  // The first entry for the settlement names the actor's faction.
  predicate OwnedBy(owners: Owners, id: string, faction: string) {
    && faction != ""
    && exists i :: 0 <= i < |owners| && owners[i].0 == id && owners[i].1 == faction
                   && forall k :: 0 <= k < i ==> owners[k].0 != id
  }

  predicate OnOwnGround(ss: seq<Settlement>, owners: Owners, x: Entry, p: Policy) {
    var a := x.envelope.action;
    && Trades(a) && p.requireOwnedTarget && !(x.actor.hostAdmin && p.allowAdminMutation)
    && (exists s :: s in ss && s.id == a.targetId)
    ==> OwnedBy(owners, a.targetId, x.actor.factionId)
  }

  predicate Supplied(ss: seq<Settlement>, x: Entry) {
    var a := x.envelope.action;
    a.kind in {"remove_resource", "transfer_resource"} ==>
      forall i :: 0 <= i < |ss| && FirstWithId(ss, a.targetId, i) ==>
        (if a.resourceId in ss[i].storage then ss[i].storage[a.resourceId] else 0) >= a.amount
  }

  // The reason of the first condition that fails.
  function Verdict(at: Setting, e: State, x: Entry): Reason {
    if !Complete(x, at.policy) then Conflict
    else if !InOwnName(x, at.policy) then Unauthorized
    else if !InTime(x, at.tick, at.policy) then StaleTarget
    else if !TimeGranted(x, at.policy) || !TradeGranted(x, at.policy) then Unauthorized
    else if !Aimed(e.settlements, x) then InvalidTarget
    else if !OnOwnGround(e.settlements, at.owners, x, at.policy) then Unauthorized
    else if !Supplied(e.settlements, x) then InsufficientResource
    else NoReason
  }

  // ---- agreement ----

  lemma KindsTell(a: Action)
    ensures KindOf(a) ==
      if a.kind == "add_resource" then Add
      else if a.kind == "remove_resource" then Remove
      else if a.kind == "transfer_resource" then Move
      else if a.kind == "advance_days" then Advance
      else Unsupported
    ensures Trades(a) <==> OnResource(a)
    ensures a.kind == "transfer_resource" <==> KindOf(a).Move?
    ensures a.kind == "remove_resource" <==> KindOf(a).Remove?
    ensures a.kind == "advance_days" <==> KindOf(a).Advance?
  {
    assert |"add_resource"| == |"advance_days"| == 12 && |"remove_resource"| == 15 && |"transfer_resource"| == 17;
    assert "add_resource"[2] == 'd' && "advance_days"[2] == 'v';
  }

  lemma CompleteAgrees(x: Entry, p: Policy)
    ensures Complete(x, p) <==> WellFormed(x.envelope, x.actor, p)
  {
    KindsTell(x.envelope.action);
    hide KindOf;
    assert forall ids: seq<string> :: NoneEmpty(ids) <==> "" !in ids;
  }

  lemma GrantedAgrees(a: Actor, p: Policy)
    ensures Granted(a, p, "trade") <==> Permitted(a, Authority.Rules(p), TRADE)
    ensures Granted(a, p, "advance_time") <==> Permitted(a, Authority.Rules(p), ADVANCE_TIME)
  {
    if |p.rules| == 0 {
      DefaultPermissions(a, TRADE);
      DefaultPermissions(a, ADVANCE_TIME);
      assert |TRADE| == 5 && |ADVANCE_TIME| == |INJECT_EVENT| == 12 && ADVANCE_TIME[0] == 'a' && INJECT_EVENT[0] == 'i';
      hide Permitted;
    }
  }

  lemma FoundExactly(ss: seq<Settlement>, id: string)
    ensures Has(ss, id) <==> exists s :: s in ss && s.id == id
    ensures Has(ss, id) ==> FirstWithId(ss, id, Find(ss, id))
  {
    hide Find;
    if Has(ss, id) { assert ss[Find(ss, id)] in ss; }
  }

  lemma {:induction false} OwnerIsFirst(o: Owners, id: string, faction: string)
    ensures OwnedBy(o, id, faction) <==> OwnerOf(o, id) == faction && faction != ""
  {
    if o != [] && o[0].0 != id {
      OwnerIsFirst(o[1..], id, faction);
      if i :| 0 <= i < |o| && o[i].0 == id && o[i].1 == faction && forall k :: 0 <= k < i ==> o[k].0 != id {
        assert o[1..][i - 1] == o[i];
        assert forall k :: 0 <= k < i - 1 ==> o[1..][k] == o[k + 1];
      }
      if i :| 0 <= i < |o[1..]| && o[1..][i].0 == id && o[1..][i].1 == faction
              && forall k :: 0 <= k < i ==> o[1..][k].0 != id {
        assert o[i + 1] == o[1..][i];
        assert forall k :: 0 < k < i + 1 ==> o[k] == o[1..][k - 1];
      }
    }
  }

  lemma TargetsAgree(e: State, owners: Owners, x: Entry, p: Policy)
    ensures Aimed(e.settlements, x) <==> TargetsExist(e.settlements, x.envelope)
    ensures OnOwnGround(e.settlements, owners, x, p) <==> TargetOwned(e.settlements, owners, x.envelope, x.actor, p)
    ensures Supplied(e.settlements, x) <==> StockSuffices(e.settlements, x.envelope)
  {
    var a := x.envelope.action;
    KindsTell(a);
    FoundExactly(e.settlements, a.targetId);
    FoundExactly(e.settlements, a.secondaryTargetId);
    OwnerIsFirst(owners, a.targetId, x.actor.factionId);
    hide KindOf, Find, Has, OwnerOf, OwnedBy;
  }

  lemma VerdictAgrees(at: Setting, e: State, x: Entry)
    ensures Verdict(at, e, x) == ReasonFor(e.settlements, at.tick, at.owners, x.envelope, x.actor, at.policy)
    ensures Admits(at, e, x) <==> Verdict(at, e, x) == NoReason
  {
    CompleteAgrees(x, at.policy);
    GrantedAgrees(x.actor, at.policy);
    KindsTell(x.envelope.action);
    TargetsAgree(e, at.owners, x, at.policy);
    hide KindOf, Complete, WellFormed, Aimed, TargetsExist, OnOwnGround, TargetOwned, Supplied, StockSuffices,
         Granted, Permitted, Trades;
    AuthorizedMeansNoReason(e.settlements, at.tick, at.owners, x.envelope, x.actor, at.policy);
  }

  lemma {:induction false} AuditIsJudged(at: Setting, e: State, xs: seq<Entry>, k: nat)
    requires k < |xs|
    ensures Trail(at, e, xs)[k] == JudgedAudit(at, Replayed(at, e, xs[..k]), xs[k])
  {
    hide JudgedAudit, Judged;
    var n := |xs| - 1;
    if k < n {
      AuditIsJudged(at, e, xs[..n], k);
      assert xs[..n][..k] == xs[..k];
    }
  }

  // Entry by entry, whatever came before: the gate turns a request away for the first of its conditions
  // that fails, with that one's reason, and then nothing happens; one that meets them all is served.
  lemma LogVerdicts(at: Setting, e: State, xs: seq<Entry>, k: nat)
    requires k < |xs|
    ensures var now := Replayed(at, e, xs[..k]);
      var audit, verdict := Trail(at, e, xs)[k], Verdict(at, now, xs[k]);
      && (verdict != NoReason ==>
            && audit.error == NotAuthorized(verdict) && audit.status == Rejected && !audit.accepted
            && audit.eventCount == 0 && Replayed(at, e, xs[..k + 1]) == now)
      && (verdict == NoReason ==>
            !audit.error.NotAuthorized? && Replayed(at, e, xs[..k + 1]) == Served(now, at.registry, xs[k].envelope))
  {
    var now := Replayed(at, e, xs[..k]);
    AuditIsJudged(at, e, xs, k);
    OneMoreEntry(at, e, xs, k);
    VerdictAgrees(at, now, xs[k]);
    hide Verdict, Admits, ReasonFor, Replayed, Trail, ReviewMessages, Served, Succeeds, ValidEnvelope;
  }

  // So an accepted request came in time and in its sender's name, days pass only for those who may advance
  // time, and goods move only for those the resource is open to, on ground they own where that is asked for.
  lemma AcceptedMeans(at: Setting, e: State, xs: seq<Entry>, k: nat)
    requires k < |xs| && Trail(at, e, xs)[k].accepted
    ensures var env, a, p := xs[k].envelope, xs[k].actor, at.policy;
      && env.submittedTick <= at.tick <= env.submittedTick + p.maxAge
      && (p.requireActorMatch ==> env.action.actorId == a.actorId && env.session.playerId == a.playerId)
      && (env.action.kind == "advance_days" ==> a.canAdvanceTime || a.hostAdmin)
      && (Trades(env.action) ==> a.resourceIds == [] || env.action.resourceId in a.resourceIds)
      && (Trades(env.action) && p.requireOwnedTarget && !(a.hostAdmin && p.allowAdminMutation) ==>
            OwnedBy(at.owners, env.action.targetId, a.factionId))
  {
    LogVerdicts(at, e, xs, k);
    hide Trail, Replayed, Complete, Granted, Supplied, OwnedBy, Trades;
  }

  // An audit repeats the request, and tells the day and the events the engine was left with.
  lemma AuditTells(at: Setting, e: State, x: Entry)
    ensures var audit, env, after := JudgedAudit(at, e, x), x.envelope, Judged(at, e, x);
      && audit.sequence == env.sequence && audit.submittedTick == env.submittedTick && audit.shardId == env.shardId
      && audit.actionId == env.action.actionId && audit.kind == env.action.kind
      && audit.actorId == env.action.actorId && audit.session == env.session
      && audit.resultingDay == after.day
      && audit.eventCount == |after.events| - |e.events|
      && (audit.accepted <==> audit.status == Accepted) && (audit.accepted <==> audit.error == NoError)
      && audit.status != Invalid && (audit.accepted ==> audit.diagnosticCount == 0)
      && (audit.error == ActionRejected ==> audit.diagnosticCount == 1)
      && after.day == (if audit.accepted && env.action.kind == "advance_days" then
                         (e.day + env.action.days) % 0x1_0000_0000_0000_0000 else e.day)
  {
    KindsTell(x.envelope.action);
    if Admits(at, e, x) {
      ServedEventCount(e, at.registry, x.envelope);
      if KindOf(x.envelope.action).Advance? { DaysPass(e, at.registry, x.envelope.action.days); }
    }
    hide Accepts, Execute, DaysLater, KindOf, ReasonFor, SameActor, Timely, MayAdvance, MayTrade, TargetsExist,
         TargetOwned, StockSuffices, ValidActor, ValidPolicy;
  }

  // ---- how many complaints ----

  function Where<T>(s: seq<T>, test: T -> bool): set<nat> {
    set i: nat | i < |s| && test(s[i])
  }

  lemma WhereSnoc<T>(s: seq<T>, test: T -> bool)
    requires s != []
    ensures |Where(s, test)| == |Where(s[..|s| - 1], test)| + if test(s[|s| - 1]) then 1 else 0
  {
    var n := |s| - 1;
    if test(s[n]) {
      assert Where(s, test) == Where(s[..n], test) + {n};
    } else {
      assert Where(s, test) == Where(s[..n], test);
    }
  }

  lemma {:induction false} EmptyIdsCounted(ids: seq<string>)
    ensures EmptyCount(ids) == |Where(ids, (id: string) => id == "")|
  {
    if ids != [] {
      EmptyIdsCounted(ids[..|ids| - 1]);
      WhereSnoc(ids, (id: string) => id == "");
    }
  }

  lemma {:induction false} RulesCounted(rules: seq<Rule>)
    ensures RuleErrors(rules) == |Where(rules, (rule: Rule) => rule.actionId == "")|
    ensures RuleWarnings(rules) ==
      |Where(rules, (rule: Rule) => !(rule.hostAdminAllowed || rule.toolActorAllowed || rule.factionActorAllowed))|
  {
    if rules != [] {
      RulesCounted(rules[..|rules| - 1]);
      WhereSnoc(rules, (rule: Rule) => rule.actionId == "");
      WhereSnoc(rules, (rule: Rule) =>
        !(rule.hostAdminAllowed || rule.toolActorAllowed || rule.factionActorAllowed));
    }
  }

  // Every empty id of an actor and every missing part of a request is one complaint, every rule that admits
  // nobody and every request in somebody else's name one warning.
  lemma ComplaintsCounted(env: Envelope, a: Actor, p: Policy)
    ensures FormErrors(env, a, p) ==
      Tally(env.sequence == 0) + Tally(env.shardId == "") + Tally(env.session.playerId == "")
      + Tally(env.session.sessionId == "")
      + ActionErrors(env.action)
      + Tally(a.actorId == "") + Tally(a.playerId == "")
      + Tally(a.factionId == "" && !(a.hostAdmin || a.toolActor))
      + |Where(a.resourceIds, (id: string) => id == "")| + |Where(a.systemActions, (id: string) => id == "")|
      + |Where(a.routeIds, (id: string) => id == "")| + |Where(a.contractIds, (id: string) => id == "")|
      + |Where(a.factionIds, (id: string) => id == "")|
      + Tally(p.maxAge == 0) + |Where(p.rules, (rule: Rule) => rule.actionId == "")|
    ensures FormWarnings(env, p) ==
      Tally(env.action.actorId != "" && env.action.actorId != env.session.playerId)
      + |Where(p.rules, (rule: Rule) => !(rule.hostAdminAllowed || rule.toolActorAllowed || rule.factionActorAllowed))|
    ensures var action := env.action;
      ActionErrors(action) ==
        Tally(action.actionId == "") + Tally(action.kind == "advance_days" && action.days == 0)
        + Tally(action.kind != "advance_days" && !Trades(action))
        + Tally(Trades(action) && action.targetId == "") + Tally(Trades(action) && action.resourceId == "")
        + Tally(Trades(action) && action.amount == 0)
        + Tally(action.kind == "transfer_resource" && action.secondaryTargetId == "")
  {
    EmptyIdsCounted(a.resourceIds);
    EmptyIdsCounted(a.systemActions);
    EmptyIdsCounted(a.routeIds);
    EmptyIdsCounted(a.contractIds);
    EmptyIdsCounted(a.factionIds);
    RulesCounted(p.rules);
    KindsTell(env.action);
    hide Where, EmptyCount, RuleErrors, RuleWarnings, KindOf;
  }

  predicate Present(ss: seq<Settlement>, id: string) { exists s :: s in ss && s.id == id }

  function AdvanceCounted(x: Entry, p: Policy): nat {
    Tally(!x.actor.canAdvanceTime && !x.actor.hostAdmin) + Tally(!Granted(x.actor, p, "advance_time"))
  }

  function TradeCounted(at: Setting, ss: seq<Settlement>, x: Entry): nat {
    var a, p, action := x.actor, at.policy, x.envelope.action;
    Tally(!Granted(a, p, "trade")) + Tally(|a.resourceIds| > 0 && action.resourceId !in a.resourceIds)
    + Tally(!Present(ss, action.targetId))
    + Tally(action.kind == "transfer_resource" && !Present(ss, action.secondaryTargetId))
    + Tally(!OnOwnGround(ss, at.owners, x, p)) + Tally(!Supplied(ss, x))
  }

  lemma TradeIsCounted(at: Setting, e: State, x: Entry)
    requires Trades(x.envelope.action)
    ensures var env, a, p, ss := x.envelope, x.actor, at.policy, e.settlements;
      TradeCounted(at, ss, x) == TradeObjections(env, a, p) + TargetObjections(ss, env)
        + Tally(!TargetOwned(ss, at.owners, env, a, p)) + Tally(!StockSuffices(ss, env))
  {
    var action := x.envelope.action;
    GrantedAgrees(x.actor, at.policy);
    KindsTell(action);
    TargetsAgree(e, at.owners, x, at.policy);
    FoundExactly(e.settlements, action.targetId);
    FoundExactly(e.settlements, action.secondaryTargetId);
    hide KindOf, OnOwnGround, TargetOwned, Supplied, StockSuffices, Granted, Permitted, Has, Aimed, TargetsExist;
  }

  lemma AdvanceIsCounted(x: Entry, p: Policy)
    requires Formed(x.envelope.action) && !Trades(x.envelope.action)
    ensures AdvanceCounted(x, p) == AdvanceObjections(x.envelope, x.actor, p)
  {
    GrantedAgrees(x.actor, p);
    KindsTell(x.envelope.action);
    hide KindOf, Granted, Permitted;
  }

  lemma ObjectionsCounted(at: Setting, e: State, x: Entry)
    requires Formed(x.envelope.action)
    ensures var env, a, p := x.envelope, x.actor, at.policy;
      Objections(e.settlements, at.tick, at.owners, env, a, p) ==
        Tally(p.requireActorMatch && env.action.actorId != a.actorId)
        + Tally(p.requireActorMatch && env.session.playerId != a.playerId) + Tally(!InTime(x, at.tick, p))
        + if Trades(env.action) then TradeCounted(at, e.settlements, x) else AdvanceCounted(x, p)
  {
    var env, a, p := x.envelope, x.actor, at.policy;
    KindsTell(env.action);
    if Trades(env.action) {
      TradeIsCounted(at, e, x);
      assert AdvanceObjections(env, a, p) == 0;
    } else {
      AdvanceIsCounted(x, p);
      OthersNeedNoTarget(e.settlements, at.owners, env, a, p);
    }
    hide KindOf, TargetOwned, StockSuffices, TradeCounted, AdvanceCounted, TradeObjections, TargetObjections,
         AdvanceObjections;
  }

  // A complete request draws one objection for each condition it does not meet; an incomplete one is not
  // looked into any further.
  lemma MessagesCounted(at: Setting, e: State, x: Entry)
    ensures var env, a, p, ss := x.envelope, x.actor, at.policy, e.settlements;
      ReviewMessages(ss, at.tick, at.owners, env, a, p) == FormErrors(env, a, p) + FormWarnings(env, p)
        + if !Complete(x, p) then 0
          else
            Tally(p.requireActorMatch && env.action.actorId != a.actorId)
            + Tally(p.requireActorMatch && env.session.playerId != a.playerId) + Tally(!InTime(x, at.tick, p))
            + if Trades(env.action) then TradeCounted(at, ss, x) else AdvanceCounted(x, p)
  {
    CompleteAgrees(x, at.policy);
    if Complete(x, at.policy) { ObjectionsCounted(at, e, x); }
    hide WellFormed, Objections, FormErrors, FormWarnings, TradeCounted, AdvanceCounted;
  }
}
