// What no replayed log can do, and what the gate's consent guarantees.
module ReplaySafety {
  import opened U64
  import opened Records
  import opened Storage
  import opened DataRegistry
  import opened Settlement
  import opened Engine
  import opened EngineRuns
  import opened Dispatch
  import opened Authority
  import opened Replay

  // ---- replay keeps engines sound ----

  lemma {:induction false} DaysKeepSound(e: State, registry: Registry, n: nat)
    requires ReferencesValid(registry) && Sound(e, registry)
    ensures Sound(DaysLater(e, registry, n), registry)
  {
    hide NextDay, Sound;
    if n > 0 {
      DaysKeepSound(e, registry, n - 1);
      StepKeepsSound(DaysLater(e, registry, n - 1), registry, NewDay);
    }
  }

  lemma EntryKeepsSound(at: Setting, e: State, x: Entry)
    requires ReferencesValid(at.registry) && Sound(e, at.registry)
    ensures Sound(Judged(at, e, x), at.registry)
  {
    hide Admits, Sound, ValidEnvelope;
    if Admits(at, e, x) && ValidEnvelope(x.envelope) {
      var a := x.envelope.action;
      if ValidAction(a) {
        if KindOf(a).Advance? {
          DaysKeepSound(e, at.registry, a.days);
        } else {
          StepKeepsSound(e, at.registry, Do(CommandOf(a)));
        }
      }
    }
  }

  // Whatever the log holds, an engine that could be saved and restored before it can be after it.
  lemma {:induction false} ReplayKeepsSound(at: Setting, e: State, xs: seq<Entry>)
    requires ReferencesValid(at.registry) && Sound(e, at.registry)
    ensures Sound(Replayed(at, e, xs), at.registry)
  {
    if xs != [] {
      ReplayKeepsSound(at, e, xs[..|xs| - 1]);
      EntryKeepsSound(at, Replayed(at, e, xs[..|xs| - 1]), xs[|xs| - 1]);
    }
  }

  // ---- what consent means ----

  // An admitted entry is refused by the engine in three cases only: goods nobody registered, goods
  // that do not fit where they go, and a transfer from a settlement to itself.
  lemma AdmittedSucceedsExactly(at: Setting, e: State, x: Entry)
    requires Sound(e, at.registry) && Admits(at, e, x)
    ensures var a := x.envelope.action;
      JudgedAudit(at, e, x).accepted <==>
        match KindOf(a) {
          case Add =>
            && a.resourceId in at.registry.resources
            && StockAt(e.settlements, a.targetId, a.resourceId) + a.amount <= U64_MAX
          case Move =>
            && a.targetId != a.secondaryTargetId
            && StockAt(e.settlements, a.secondaryTargetId, a.resourceId) + a.amount <= U64_MAX
          case _ => true
        }
  {
    hide Sound, Admits, Authorized, ReasonFor;
    ConsentGives(at, e, x);
    AcceptedIsSucceeds(at, e, x);
  }

  lemma AcceptedIsSucceeds(at: Setting, e: State, x: Entry)
    requires Admits(at, e, x)
    ensures JudgedAudit(at, e, x).accepted == Succeeds(e, at.registry, x.envelope.action)
  {
    hide Succeeds, ValidAction, SameActor, Timely, MayAdvance, MayTrade, TargetsExist, TargetOwned, StockSuffices;
  }

  // What the gate has already made sure of, for an engine whose stock is registered.
  lemma ConsentGives(at: Setting, e: State, x: Entry)
    requires Sound(e, at.registry) && Admits(at, e, x)
    ensures var a := x.envelope.action;
      && ValidAction(a)
      && (OnResource(a) ==> Has(e.settlements, a.targetId))
      && (KindOf(a).Move? ==> Has(e.settlements, a.secondaryTargetId))
      && (KindOf(a).Remove? || KindOf(a).Move? ==>
          a.resourceId in at.registry.resources
          && CanRemove(e.settlements[Find(e.settlements, a.targetId)].storage, a.resourceId, a.amount))
  {
    hide SameActor, Timely, MayAdvance, MayTrade, TargetOwned, ValidActor, ValidPolicy, Permitted;
    var a := x.envelope.action;
    if KindOf(a).Remove? || KindOf(a).Move? {
      var s := e.settlements[Find(e.settlements, a.targetId)];
      assert Stocked(s.storage, at.registry) && a.resourceId in s.storage;
    }
  }

  // ---- strangers take nothing ----

  // Neither owns the settlement nor may override ownership.
  predicate Stranger(at: Setting, id: string, a: Actor) {
    !OwnsTarget(at.owners, id, a) && !(a.hostAdmin && at.policy.allowAdminMutation)
  }

  lemma FindUnmoved(ss: seq<Settlement>, i: nat, stock: Stock, id: string)
    requires i < |ss|
    ensures Find(WithStorage(ss, i, stock), id) == Find(ss, id)
  {
    var ss' := WithStorage(ss, i, stock);
    assert forall k :: 0 <= k < |ss| ==> ss'[k].id == ss[k].id;
  }

  lemma CommandLeavesStock(e: State, registry: Registry, a: Action, id: string, r: string)
    requires OnResource(a) && a.targetId != id && Has(e.settlements, id)
    ensures var ss' := Execute(e.settlements, registry, CommandOf(a));
      Has(ss', id) && StockAt(ss', id, r) >= StockAt(e.settlements, id, r)
  {
    var ss := e.settlements;
    if Accepts(ss, registry, CommandOf(a)) {
      var i, n := Find(ss, a.targetId), a.amount;
      match KindOf(a) {
        case Add => FindUnmoved(ss, i, Added(ss[i].storage, a.resourceId, n), id);
        case Remove => FindUnmoved(ss, i, Removed(ss[i].storage, a.resourceId, n), id);
        case Move =>
          var j := Find(ss, a.secondaryTargetId);
          var mid := WithStorage(ss, i, Removed(ss[i].storage, a.resourceId, n));
          FindUnmoved(ss, i, Removed(ss[i].storage, a.resourceId, n), id);
          FindUnmoved(mid, j, Added(ss[j].storage, a.resourceId, n), id);
      }
    }
  }

  lemma EntryLeavesStock(at: Setting, e: State, x: Entry, id: string, r: string)
    requires at.policy.requireOwnedTarget && Stranger(at, id, x.actor) && !KindOf(x.envelope.action).Advance?
    requires Has(e.settlements, id)
    ensures var ss' := Judged(at, e, x).settlements;
      Has(ss', id) && StockAt(ss', id, r) >= StockAt(e.settlements, id, r)
  {
    var a := x.envelope.action;
    if Admits(at, e, x) {
      ValidIsSupported(a);
      assert a.targetId != id;
      CommandLeavesStock(e, at.registry, a, id, r);
    }
  }

  // Under ownership rules, a log in which nobody owns a settlement or may override its owner, and
  // in which no days pass, leaves that settlement with at least what it had of everything.
  lemma {:induction false} StrangersTakeNothing(at: Setting, e: State, xs: seq<Entry>, id: string, r: string)
    requires at.policy.requireOwnedTarget && Has(e.settlements, id)
    requires forall i :: 0 <= i < |xs| ==> Stranger(at, id, xs[i].actor) && !KindOf(xs[i].envelope.action).Advance?
    ensures var ss' := Replayed(at, e, xs).settlements;
      Has(ss', id) && StockAt(ss', id, r) >= StockAt(e.settlements, id, r)
  {
    if xs != [] {
      StrangersTakeNothing(at, e, xs[..|xs| - 1], id, r);
      EntryLeavesStock(at, Replayed(at, e, xs[..|xs| - 1]), xs[|xs| - 1], id, r);
    }
  }

  lemma TransferDelivers(ss: seq<Settlement>, registry: Registry, id: string, target: string, r: string, n: u64)
    requires Accepts(ss, registry, Command.TransferResource(id, target, r, n))
    ensures var ss' := Execute(ss, registry, Command.TransferResource(id, target, r, n));
      StockAt(ss', target, r) == StockAt(ss, target, r) + n && StockAt(ss', id, r) == StockAt(ss, id, r) - n
  {
    var i, j := Find(ss, id), Find(ss, target);
    var mid := WithStorage(ss, i, Removed(ss[i].storage, r, n));
    FindUnmoved(ss, i, Removed(ss[i].storage, r, n), id);
    FindUnmoved(ss, i, Removed(ss[i].storage, r, n), target);
    FindUnmoved(mid, j, Added(ss[j].storage, r, n), id);
    FindUnmoved(mid, j, Added(ss[j].storage, r, n), target);
  }

  // The gate asks who owns the settlement an action starts from, and nothing else about ownership.
  lemma OnlySourceOwnershipCounts(at: Setting, owners: Owners, e: State, x: Entry)
    requires OwnerOf(owners, x.envelope.action.targetId) == OwnerOf(at.owners, x.envelope.action.targetId)
    ensures Admits(at.(owners := owners), e, x) == Admits(at, e, x)
    ensures Judged(at.(owners := owners), e, x) == Judged(at, e, x)
    ensures JudgedAudit(at.(owners := owners), e, x) == JudgedAudit(at, e, x)
  {
    hide Served, ServedAudit, WellFormed, SameActor, Timely, MayAdvance, MayTrade, TargetsExist, StockSuffices, OwnerOf;
  }

  // Goods may be pushed into a settlement by somebody who does not own it: a transfer is judged just
  // as it would be if the sender owned the destination, and an accepted one arrives in full.
  lemma StrangersMayGive(at: Setting, e: State, x: Entry)
    requires KindOf(x.envelope.action).Move? && x.envelope.action.targetId != x.envelope.action.secondaryTargetId
    ensures var a := x.envelope.action;
      var owned := at.(owners := [(a.secondaryTargetId, x.actor.factionId)] + at.owners);
      && OwnerOf(owned.owners, a.secondaryTargetId) == x.actor.factionId
      && Admits(owned, e, x) == Admits(at, e, x) && JudgedAudit(owned, e, x) == JudgedAudit(at, e, x)
      && (JudgedAudit(at, e, x).accepted ==>
          StockAt(Judged(at, e, x).settlements, a.secondaryTargetId, a.resourceId)
          == StockAt(e.settlements, a.secondaryTargetId, a.resourceId) + a.amount)
  {
    var a := x.envelope.action;
    var owners := [(a.secondaryTargetId, x.actor.factionId)] + at.owners;
    assert owners[1..] == at.owners;
    assert OwnerOf(owners, a.targetId) == OwnerOf(at.owners, a.targetId);
    hide Authorized, ReasonFor, Accepts, Execute, StockAt;
    OnlySourceOwnershipCounts(at, owners, e, x);
    if JudgedAudit(at, e, x).accepted {
      TransferDelivers(e.settlements, at.registry, a.targetId, a.secondaryTargetId, a.resourceId, a.amount);
    }
  }

  // ---- such a gift ----

  const GIVER := Actor("ann", "ann", "north", false, false, false, [], [], [], [], [])

  const GIFT := Entry(
    Envelope(1, 0, "shard", Session("ann", "session"),
             Action("gift", TRANSFER, "ann", "mill", "town", "grain", 5, 0)),
    GIVER)

  const GIFT_OWNERS: Owners := [("mill", "north"), ("town", "south")]

  const GIFT_SETTING := Setting(
    Registry(map["grain" := ResourceDefinition("", 1)], {}, map[], map[]), 0, GIFT_OWNERS,
    Policy(300, true, true, true, []))

  const BEFORE_GIFT := State(
    0, [Settlement("mill", "", 0, map["grain" := 5], [], []), Settlement("town", "", 0, map[], [], [])], [], map[])

  lemma GiftIsWellFormed()
    ensures KindOf(GIFT.envelope.action).Move? && WellFormed(GIFT.envelope, GIVER, GIFT_SETTING.policy)
  {
    assert |TRANSFER| == 17 && |ADD| == 12 && |REMOVE| == 15;
  }

  lemma GiftTargetsAreFound()
    ensures Find(BEFORE_GIFT.settlements, "mill") == 0 && Find(BEFORE_GIFT.settlements, "town") == 1
  {
    assert "mill"[0] == 'm' && "town"[0] == 't';
    assert BEFORE_GIFT.settlements[0].id == "mill" && BEFORE_GIFT.settlements[1].id == "town";
  }

  lemma GiftOwners()
    ensures OwnerOf(GIFT_OWNERS, "mill") == "north" && OwnerOf(GIFT_OWNERS, "town") == "south" && "south" != "north"
  {
    assert "mill"[0] == 'm' && "town"[0] == 't' && "south"[0] == 's' && "north"[0] == 'n';
    assert GIFT_OWNERS[1..] == [("town", "south")];
  }

  lemma TheGiftIsAdmitted()
    ensures Admits(GIFT_SETTING, BEFORE_GIFT, GIFT) && !OwnsTarget(GIFT_OWNERS, "town", GIVER)
  {
    GiftIsWellFormed();
    GiftTargetsAreFound();
    GiftOwners();
    DefaultPermissions(GIVER, TRADE);
    hide KindOf, WellFormed, Permitted, Find, OwnerOf, ValidAction;
  }

  lemma GiftStocks()
    ensures Sound(BEFORE_GIFT, GIFT_SETTING.registry)
    ensures StockAt(BEFORE_GIFT.settlements, "mill", "grain") == 5
    ensures StockAt(BEFORE_GIFT.settlements, "town", "grain") == 0
  {
    GiftTargetsAreFound();
    assert "mill"[0] == 'm' && "town"[0] == 't';
    hide Find;
  }

  // The sender owns the mill and not the town; the transfer is admitted, accepted, and arrives.
  lemma AGiftIsAdmitted()
    ensures Admits(GIFT_SETTING, BEFORE_GIFT, GIFT) && !OwnsTarget(GIFT_OWNERS, "town", GIVER)
    ensures JudgedAudit(GIFT_SETTING, BEFORE_GIFT, GIFT).accepted
    ensures StockAt(Judged(GIFT_SETTING, BEFORE_GIFT, GIFT).settlements, "town", "grain") == 5
  {
    GiftIsWellFormed();
    GiftTargetsAreFound();
    TheGiftIsAdmitted();
    GiftStocks();
    hide KindOf, WellFormed, Permitted, Find, OwnerOf, OwnsTarget, ValidAction, Admits, JudgedAudit, Judged;
    hide StockAt, Sound;
    assert "mill"[0] == 'm' && "town"[0] == 't';
    AdmittedSucceedsExactly(GIFT_SETTING, BEFORE_GIFT, GIFT);
    StrangersMayGive(GIFT_SETTING, BEFORE_GIFT, GIFT);
  }
}
