// Runtime actions, the server envelopes that carry them, and their dispatch to the engine.
module Dispatch {
  import opened U64
  import opened Records
  import opened DataRegistry
  import opened Engine
  import opened ActionResultJson

  datatype Action = Action(
    actionId: string, kind: string, actorId: string, targetId: string, secondaryTargetId: string,
    resourceId: string, amount: u64, days: u64)

  const ADD := "add_resource"
  const REMOVE := "remove_resource"
  const TRANSFER := "transfer_resource"
  const ADVANCE := "advance_days"

  // The four supported types as a tag.
  datatype Kind = Add | Remove | Move | Advance | Unsupported

  function KindOf(a: Action): Kind {
    if a.kind == ADD then Add
    else if a.kind == REMOVE then Remove
    else if a.kind == TRANSFER then Move
    else if a.kind == ADVANCE then Advance
    else Unsupported
  }

  predicate OnResource(a: Action) { KindOf(a) in {Add, Remove, Move} }

  predicate ValidAction(a: Action) {
    && a.actionId != [] && !KindOf(a).Unsupported?
    && (OnResource(a) ==> a.targetId != [] && a.resourceId != [] && a.amount > 0)
    && (KindOf(a).Move? ==> a.secondaryTargetId != [])
    && (KindOf(a).Advance? ==> a.days > 0)
  }

  // How many complaints an action draws.
  function ActionErrors(a: Action): (n: nat)
    ensures n == 0 <==> ValidAction(a)
  {
    Tally(a.actionId == []) + match KindOf(a)
      case Advance => Tally(a.days == 0)
      case Unsupported => 1
      case _ =>
        Tally(a.targetId == []) + Tally(KindOf(a).Move? && a.secondaryTargetId == [])
        + Tally(a.resourceId == []) + Tally(a.amount == 0)
  }

  method ValidateAction(a: Action) returns (errors: nat)
    ensures errors == ActionErrors(a)
  {
    errors := 0;
    if a.actionId == [] { errors := errors + 1; }
    if a.kind == [] { return errors + 1; }
    match KindOf(a) {
      case Add =>
        if a.targetId == [] { errors := errors + 1; }
        if a.resourceId == [] { errors := errors + 1; }
        if a.amount == 0 { errors := errors + 1; }
      case Remove =>
        if a.targetId == [] { errors := errors + 1; }
        if a.resourceId == [] { errors := errors + 1; }
        if a.amount == 0 { errors := errors + 1; }
      case Move =>
        if a.targetId == [] { errors := errors + 1; }
        if a.secondaryTargetId == [] { errors := errors + 1; }
        if a.resourceId == [] { errors := errors + 1; }
        if a.amount == 0 { errors := errors + 1; }
      case Advance =>
        if a.days == 0 { errors := errors + 1; }
      case Unsupported =>
        errors := errors + 1;
    }
  }

  // ---- what an action does to an engine ----

  function CommandOf(a: Action): Command
    requires OnResource(a)
  {
    match KindOf(a)
    case Add => Command.AddResource(a.targetId, a.resourceId, a.amount)
    case Remove => Command.RemoveResource(a.targetId, a.resourceId, a.amount)
    case _ => Command.TransferResource(a.targetId, a.secondaryTargetId, a.resourceId, a.amount)
  }

  predicate Succeeds(e: State, registry: Registry, a: Action) {
    ValidAction(a) && (KindOf(a).Advance? || Accepts(e.settlements, registry, CommandOf(a)))
  }

  // An invalid action leaves no trace; a valid one that the engine refuses is still logged.
  function Dispatched(e: State, registry: Registry, a: Action): State {
    if !ValidAction(a) then e
    else if KindOf(a).Advance? then DaysLater(e, registry, a.days)
    else Commanded(e, registry, CommandOf(a))
  }

  datatype Status = Accepted | Invalid | Rejected

  datatype Reason = NoReason | Unauthorized | InvalidTarget | StaleTarget | InsufficientResource | Conflict

  datatype ErrorCode = NoError | MalformedJson | InvalidAction | ActionRejected | NotAuthorized(reason: Reason)

  datatype Outcome = Outcome(
    actionId: string, kind: string, status: Status, error: ErrorCode, diagnostics: nat,
    command: CommandDetail, events: seq<SimulationEvent>)
  {
    predicate Ok() { status == Accepted }
  }

  // The command an action ran, as the outcome repeats it.
  function DetailOf(c: Command, ok: bool): CommandDetail {
    match c
    case CreateSettlement(id) => CommandDetail(Name(c), ok, id, "", "", 0)
    case AddBuilding(id, b) => CommandDetail(Name(c), ok, id, b.definitionId, "", 0)
    case AddResource(id, r, n) => CommandDetail(Name(c), ok, id, "", r, n)
    case RemoveResource(id, r, n) => CommandDetail(Name(c), ok, id, "", r, n)
    case TransferResource(id, target, r, n) => CommandDetail(Name(c), ok, id, target, r, n)
  }

  const NO_COMMAND := CommandDetail("", false, "", "", "", 0)

  // The events an outcome carries are those the engine gained.
  ghost predicate Describes(o: Outcome, before: State, after: State, registry: Registry, a: Action) {
    && o.actionId == a.actionId && o.kind == a.kind
    && after.events == before.events + o.events
    && (o.Ok() <==> Succeeds(before, registry, a))
    && (o.status == Invalid <==> !ValidAction(a))
    && o.error
       == match o.status { case Accepted => NoError case Invalid => InvalidAction case Rejected => ActionRejected }
    && o.diagnostics == match o.status { case Accepted => 0 case Invalid => ActionErrors(a) case Rejected => 1 }
    && o.command == if ValidAction(a) && OnResource(a) then DetailOf(CommandOf(a), o.Ok()) else NO_COMMAND
  }

  method DispatchCommand(engine: SimulationEngine, a: Action) returns (errors: nat)
    requires engine.Valid() && OnResource(a)
    modifies engine`events, engine.settlements, Stores(engine.settlements)
    ensures engine.Valid()
    ensures engine.View() == Commanded(old(engine.View()), engine.registry, CommandOf(a))
    ensures errors <= 1
    ensures errors == 0 <==> Accepts(old(engine.View()).settlements, engine.registry, CommandOf(a))
  {
    hide Accepts, Commanded;
    match KindOf(a) {
      case Add => errors := engine.AddResourceCommand(a.targetId, a.resourceId, a.amount);
      case Remove => errors := engine.RemoveResourceCommand(a.targetId, a.resourceId, a.amount);
      case Move => errors := engine.TransferResourceCommand(a.targetId, a.secondaryTargetId, a.resourceId, a.amount);
    }
  }

  method DispatchAction(engine: SimulationEngine, a: Action) returns (o: Outcome)
    requires engine.Valid()
    modifies engine`currentDay, engine`events, engine.settlements, Stores(engine.settlements)
    ensures engine.Valid()
    ensures engine.View() == Dispatched(old(engine.View()), engine.registry, a)
    ensures Describes(o, old(engine.View()), engine.View(), engine.registry, a)
  {
    hide Accepts, Execute, DaysLater, ValidAction, DetailOf, CommandOf, Dispatched, Succeeds, AllEvents, CommandEvent;
    EffectOf(engine.View(), engine.registry, a);
    var problems := ValidateAction(a);
    if problems > 0 { return Outcome(a.actionId, a.kind, Invalid, InvalidAction, problems, NO_COMMAND, []); }
    ValidIsSupported(a);
    var start := |engine.events|;
    if KindOf(a) == Advance {
      var reports := engine.RunDays(a.days);
      return Outcome(a.actionId, a.kind, Accepted, NoError, 0, NO_COMMAND, AllEvents(reports));
    }
    var errors := DispatchCommand(engine, a);
    var status, error := if errors == 0 then Accepted else Rejected, if errors == 0 then NoError else ActionRejected;
    o := Outcome(a.actionId, a.kind, status, error, errors, DetailOf(CommandOf(a), errors == 0),
                 engine.events[start..]);
  }

  lemma EffectOf(e: State, registry: Registry, a: Action)
    ensures !ValidAction(a) ==> Dispatched(e, registry, a) == e && !Succeeds(e, registry, a)
    ensures ValidAction(a) && KindOf(a).Advance? ==>
      Dispatched(e, registry, a) == DaysLater(e, registry, a.days) && Succeeds(e, registry, a)
    ensures ValidAction(a) && OnResource(a) ==>
      && Dispatched(e, registry, a) == Commanded(e, registry, CommandOf(a))
      && (Succeeds(e, registry, a) <==> Accepts(e.settlements, registry, CommandOf(a)))
  {
  }

  lemma ValidIsSupported(a: Action)
    requires ValidAction(a)
    ensures KindOf(a).Advance? || OnResource(a)
  {
  }

  // ---- server envelopes ----

  datatype Session = Session(playerId: string, sessionId: string)

  datatype Envelope = Envelope(sequence: u64, submittedTick: u64, shardId: string, session: Session, action: Action)

  predicate ValidEnvelope(env: Envelope) {
    && env.sequence != 0 && env.shardId != []
    && env.session.playerId != [] && env.session.sessionId != [] && ValidAction(env.action)
  }

  function EnvelopeErrors(env: Envelope): (n: nat)
    ensures n == 0 <==> ValidEnvelope(env)
  {
    Tally(env.sequence == 0) + Tally(env.shardId == []) + Tally(env.session.playerId == [])
    + Tally(env.session.sessionId == []) + ActionErrors(env.action)
  }

  // An action sent in somebody else's name only draws a warning.
  function EnvelopeWarnings(env: Envelope): nat {
    Tally(env.action.actorId != [] && env.action.actorId != env.session.playerId)
  }

  method ValidateEnvelope(env: Envelope) returns (errors: nat, warnings: nat)
    ensures errors == EnvelopeErrors(env) && warnings == EnvelopeWarnings(env)
  {
    errors, warnings := 0, 0;
    if env.sequence == 0 { errors := errors + 1; }
    if env.shardId == [] { errors := errors + 1; }
    if env.session.playerId == [] { errors := errors + 1; }
    if env.session.sessionId == [] { errors := errors + 1; }
    var actionErrors := ValidateAction(env.action);
    errors := errors + actionErrors;
    if env.action.actorId != [] && env.action.actorId != env.session.playerId { warnings := 1; }
  }

  datatype Audit = Audit(
    sequence: u64, submittedTick: u64, resultingDay: u64, shardId: string, actionId: string, kind: string,
    actorId: string, session: Session, accepted: bool, status: Status, error: ErrorCode,
    eventCount: nat, diagnosticCount: nat)

  // Events are only ever appended, so an outcome's event count is the growth of the log.
  function Growth(before: State, after: State): nat {
    if |before.events| <= |after.events| then |after.events| - |before.events| else 0
  }

  function AuditOf(env: Envelope, day: u64, status: Status, error: ErrorCode, eventCount: nat,
                   diagnostics: nat): Audit {
    Audit(env.sequence, env.submittedTick, day, env.shardId, env.action.actionId, env.action.kind,
          env.action.actorId, env.session, status == Accepted, status, error, eventCount, diagnostics)
  }

  function Served(e: State, registry: Registry, env: Envelope): State {
    if ValidEnvelope(env) then Dispatched(e, registry, env.action) else e
  }

  function ServedAudit(e: State, registry: Registry, env: Envelope): Audit {
    var after := Served(e, registry, env);
    if !ValidEnvelope(env) then
      AuditOf(env, e.day, Invalid, InvalidAction, 0, EnvelopeErrors(env) + EnvelopeWarnings(env))
    else if Succeeds(e, registry, env.action) then AuditOf(env, after.day, Accepted, NoError, Growth(e, after), 0)
    else AuditOf(env, after.day, Rejected, ActionRejected, Growth(e, after), 1)
  }

  method Serve(engine: SimulationEngine, env: Envelope) returns (audit: Audit)
    requires engine.Valid()
    modifies engine`currentDay, engine`events, engine.settlements, Stores(engine.settlements)
    ensures engine.Valid()
    ensures engine.View() == Served(old(engine.View()), engine.registry, env)
    ensures audit == ServedAudit(old(engine.View()), engine.registry, env)
  {
    hide ValidAction, Dispatched, Succeeds, EnvelopeErrors, EnvelopeWarnings;
    var problems, warnings := ValidateEnvelope(env);
    if problems > 0 { return AuditOf(env, engine.currentDay, Invalid, InvalidAction, 0, problems + warnings); }
    var o := DispatchAction(engine, env.action);
    audit := AuditOf(env, engine.currentDay, o.status, o.error, |o.events|, o.diagnostics);
  }

  // ---- how many events an action leaves ----

  lemma DayEmits(e: State, registry: Registry)
    ensures var next := NextDay(e, registry);
      && e.events <= next.events && |next.events| == |e.events| + |e.settlements| + 2
      && |next.settlements| == |e.settlements| && next.day == WrapAdd(e.day, 1) && next.demands == e.demands
  {
  }

  lemma {:induction false} DaysEmit(e: State, registry: Registry, n: nat)
    ensures var later := DaysLater(e, registry, n);
      && e.events <= later.events && |later.events| == |e.events| + n * (|e.settlements| + 2)
      && |later.settlements| == |e.settlements|
  {
    hide NextDay;
    if n > 0 {
      DaysEmit(e, registry, n - 1);
      DayEmits(DaysLater(e, registry, n - 1), registry);
      MulSuccessor(|e.settlements| + 2, n - 1);
    }
  }

  lemma {:induction false} DaysPass(e: State, registry: Registry, n: nat)
    ensures DaysLater(e, registry, n).day == (e.day + n) % (U64_MAX + 1)
            && DaysLater(e, registry, n).demands == e.demands
  {
    hide NextDay, WrapAdd;
    if n > 0 {
      DaysPass(e, registry, n - 1);
      DayEmits(DaysLater(e, registry, n - 1), registry);
      WrapAddIsModular(e.day + (n - 1), 1);
    }
  }

  // An accepted command leaves one event, n days leave a start, an end, and one event per
  // settlement each, a refused command still leaves one, and an invalid envelope none.
  lemma ServedEventCount(e: State, registry: Registry, env: Envelope)
    ensures e.events <= Served(e, registry, env).events
    ensures ServedAudit(e, registry, env).eventCount ==
      if !ValidEnvelope(env) then 0
      else if KindOf(env.action).Advance? then env.action.days * (|e.settlements| + 2)
      else 1
  {
    if ValidEnvelope(env) && KindOf(env.action).Advance? { DaysEmit(e, registry, env.action.days); }
  }
}
