// Replaying a log of commands through the authority gate.
module Replay {
  import opened U64
  import opened Records
  import opened DataRegistry
  import opened Engine
  import opened Dispatch
  import opened Authority
  import opened Sequences
  import opened Trade
  import Ledger
  import opened Contracts
  import opened Caravans

  datatype Entry = Entry(envelope: Envelope, actor: Actor)

  // What stays fixed while a log is replayed.
  datatype Setting = Setting(registry: Registry, tick: u64, owners: Owners, policy: Policy)

  predicate Admits(at: Setting, e: State, x: Entry) {
    Authorized(e.settlements, at.tick, at.owners, x.envelope, x.actor, at.policy)
  }

  function Judged(at: Setting, e: State, x: Entry): State {
    if Admits(at, e, x) then Served(e, at.registry, x.envelope) else e
  }

  function JudgedAudit(at: Setting, e: State, x: Entry): Audit {
    if Admits(at, e, x) then ServedAudit(e, at.registry, x.envelope)
    else
      var why := ReasonFor(e.settlements, at.tick, at.owners, x.envelope, x.actor, at.policy);
      AuditOf(x.envelope, e.day, Rejected, NotAuthorized(why), 0,
              ReviewMessages(e.settlements, at.tick, at.owners, x.envelope, x.actor, at.policy))
  }

  function Replayed(at: Setting, e: State, xs: seq<Entry>): State {
    if xs == [] then e else Judged(at, Replayed(at, e, xs[..|xs| - 1]), xs[|xs| - 1])
  }

  function Trail(at: Setting, e: State, xs: seq<Entry>): (audits: seq<Audit>)
    ensures |audits| == |xs|
  {
    if xs == [] then []
    else
      var n := |xs| - 1;
      Trail(at, e, xs[..n]) + [JudgedAudit(at, Replayed(at, e, xs[..n]), xs[n])]
  }

  // ---- the runtime ----

  class SimulationRuntime {
    const engine: SimulationEngine
    const contracts: ContractCatalog
    const wallet: Wallet
    const ledger: Ledger.EconomyLedger
    var tick: u64
    var caravans: seq<CaravanState>
    var owners: Owners

    constructor (engine: SimulationEngine, contracts: ContractCatalog, wallet: Wallet, ledger: Ledger.EconomyLedger,
                 caravans: seq<CaravanState>, owners: Owners, tick: u64)
      ensures this.engine == engine && this.contracts == contracts && this.wallet == wallet && this.ledger == ledger
      ensures this.caravans == caravans && this.owners == owners && this.tick == tick
    {
      this.engine, this.contracts, this.wallet, this.ledger := engine, contracts, wallet, ledger;
      this.caravans, this.owners, this.tick := caravans, owners, tick;
    }

    // No caravan shares its cargo with a settlement's storage.
    ghost predicate Valid()
      reads this, engine
    {
      engine.Valid() && Cargos(caravans) !! Stores(engine.settlements)
    }

    // What a replay leaves alone.
    ghost function Rest(): (u64, seq<Caravan>, Owners, Catalog, u64, Ledger.Book)
      reads this, caravans, Cargos(caravans), contracts, wallet, ledger
    {
      (tick, CaravanViews(caravans), owners, contracts.contracts, wallet.coins, ledger.View())
    }

    function At(policy: Policy): Setting
      reads this
    {
      Setting(engine.registry, tick, owners, policy)
    }

    method DispatchAuthorized(x: Entry, policy: Policy) returns (audit: Audit)
      requires Valid()
      modifies engine`currentDay, engine`events, engine.settlements, Stores(engine.settlements)
      ensures Valid() && Rest() == old(Rest())
      ensures engine.View() == Judged(At(policy), old(engine.View()), x)
      ensures audit == JudgedAudit(At(policy), old(engine.View()), x)
    {
      hide Authorized, ReasonFor, ReviewMessages, Served, ServedAudit, Rest;
      ghost var ss := Views(engine.settlements);
      AuthorizedMeansNoReason(ss, tick, owners, x.envelope, x.actor, policy);
      var authorized, reason, messages := ReviewAction(engine, tick, owners, x.envelope, x.actor, policy);
      if authorized {
        audit := Serve(engine, x.envelope);
      } else {
        audit := AuditOf(x.envelope, engine.currentDay, Rejected, NotAuthorized(reason), 0, messages);
      }
    }

    // Only the engine is touched: not the clock, caravans and cargoes, owners, contracts, wallet or ledger.
    // The log is validated first, but replayed whatever the validation says.
    method Replay(xs: seq<Entry>, policy: Policy) returns (audits: seq<Audit>, summary: Sequences.Summary, errors: nat)
      requires Valid()
      modifies engine`currentDay, engine`events, engine.settlements, Stores(engine.settlements)
      ensures Valid() && Rest() == old(Rest())
      ensures engine.View() == Replayed(At(policy), old(engine.View()), xs)
      ensures audits == Trail(At(policy), old(engine.View()), xs)
      ensures (errors == 0) == ValidLog(xs, 1)
      ensures summary.count == |xs| && summary.accepted == AcceptedCount(audits)
      ensures summary.accepted + summary.rejected == |xs|
      ensures if xs == [] then summary.first == summary.last == 0
        else summary.first == LogNumbers(xs)[0] && summary.last == LogNumbers(xs)[|xs| - 1]
      ensures summary.contiguous == Contiguous(LogNumbers(xs)) && summary.increasing == Increasing(LogNumbers(xs))
    {
      hide Judged, JudgedAudit, Replayed, Trail, ValidLog, Contiguous, Increasing, AcceptedCount, CaravanViews, Rest,
           LogNumbers, Numbers, Views;
      errors := ValidateLog(xs, 1);
      audits := [];
      ghost var start, at := engine.View(), At(policy);
      NothingReplayed(at, start, xs);
      for i := 0 to |xs|
        invariant Valid() && Rest() == old(Rest())
        invariant At(policy) == at
        invariant engine.View() == Replayed(at, start, xs[..i])
        invariant audits == Trail(at, start, xs[..i])
      {
        OneMoreEntry(at, start, xs, i);
        var audit := DispatchAuthorized(xs[i], policy);
        audits := audits + [audit];
      }
      assert xs[..|xs|] == xs;
      summary := Sequences.Summarize(audits);
      TrailNumbers(at, start, xs);
    }
  }

  lemma NothingReplayed(at: Setting, e: State, xs: seq<Entry>)
    ensures Replayed(at, e, xs[..0]) == e && Trail(at, e, xs[..0]) == []
  {
  }

  lemma OneMoreEntry(at: Setting, e: State, xs: seq<Entry>, i: nat)
    requires i < |xs|
    ensures Replayed(at, e, xs[..i + 1]) == Judged(at, Replayed(at, e, xs[..i]), xs[i])
    ensures Trail(at, e, xs[..i + 1]) == Trail(at, e, xs[..i]) + [JudgedAudit(at, Replayed(at, e, xs[..i]), xs[i])]
  {
    hide Judged, JudgedAudit;
    assert xs[..i + 1][..i] == xs[..i];
  }

  // ---- the log itself ----

  function LogNumbers(xs: seq<Entry>): (s: seq<u64>)
    ensures |s| == |xs| && forall i :: 0 <= i < |s| ==> s[i] == xs[i].envelope.sequence
  {
    seq(|xs|, i requires 0 <= i < |xs| => xs[i].envelope.sequence)
  }

  predicate ValidLog(xs: seq<Entry>, expected: u64) {
    Consecutive(LogNumbers(xs), expected) && forall i :: 0 <= i < |xs| ==> ValidEnvelope(xs[i].envelope)
  }

  method ValidateLog(xs: seq<Entry>, expected: u64) returns (errors: nat)
    ensures (errors == 0) == ValidLog(xs, expected)
  {
    hide WrapAdd, ValidEnvelope;
    if xs == [] { return 0; }
    var order := if xs[0].envelope.sequence != expected then 1 else 0;
    var forms := 0;
    for i := 0 to |xs|
      invariant forms == 0 <==> forall k :: 0 <= k < i ==> ValidEnvelope(xs[k].envelope)
      invariant order == 0 <==> xs[0].envelope.sequence == expected && Stepwise(LogNumbers(xs), i)
    {
      var form, warnings := ValidateEnvelope(xs[i].envelope);
      forms := forms + form;
      if i > 0 {
        var step := CheckStep(xs[i - 1].envelope.sequence, xs[i].envelope.sequence);
        order := order + step;
      }
    }
    ConsecutiveExactly(LogNumbers(xs), expected);
    errors := order + forms;
  }

  predicate Stepwise(s: seq<u64>, n: nat) {
    forall k :: 0 < k < n && k < |s| ==> s[k - 1] < s[k] && s[k] == WrapAdd(s[k - 1], 1)
  }

  lemma AuditIsNumbered(at: Setting, e: State, x: Entry)
    ensures JudgedAudit(at, e, x).sequence == x.envelope.sequence
  {
    hide Admits, ReasonFor, Succeeds, ValidEnvelope;
  }

  // Every entry is audited under its own number, admitted or not.
  lemma {:induction false} TrailNumbers(at: Setting, e: State, xs: seq<Entry>)
    ensures Numbers(Trail(at, e, xs)) == LogNumbers(xs)
  {
    hide JudgedAudit;
    if xs != [] {
      var n := |xs| - 1;
      TrailNumbers(at, e, xs[..n]);
      AuditIsNumbered(at, Replayed(at, e, xs[..n]), xs[n]);
      assert LogNumbers(xs) == LogNumbers(xs[..n]) + [xs[n].envelope.sequence];
      assert Numbers(Trail(at, e, xs)) == Numbers(Trail(at, e, xs[..n]))
          + [JudgedAudit(at, Replayed(at, e, xs[..n]), xs[n]).sequence];
    }
  }

  // ---- replay composes ----

  // Replaying one log and then another is replaying the two together.
  lemma {:induction false} ReplaySplits(at: Setting, e: State, xs: seq<Entry>, ys: seq<Entry>)
    ensures Replayed(at, e, xs + ys) == Replayed(at, Replayed(at, e, xs), ys)
    ensures Trail(at, e, xs + ys) == Trail(at, e, xs) + Trail(at, Replayed(at, e, xs), ys)
    decreases |ys|
  {
    hide Judged, JudgedAudit;
    if ys == [] {
      assert xs + ys == xs;
    } else {
      var n := |ys| - 1;
      ReplaySplits(at, e, xs, ys[..n]);
      assert (xs + ys)[..|xs| + n] == xs + ys[..n];
      assert (xs + ys)[|xs| + n] == ys[n];
    }
  }

  // ---- entries the gate turns away ----

  predicate Erasable(at: Setting, e: State, xs: seq<Entry>, drop: set<nat>, n: nat)
    requires n < |xs|
  {
    n in drop && !Admits(at, Replayed(at, e, xs[..n]), xs[n])
  }

  // The log without those of the chosen entries that were turned away.
  function Erased(at: Setting, e: State, xs: seq<Entry>, drop: set<nat>): seq<Entry> {
    if xs == [] then []
    else
      var n := |xs| - 1;
      Erased(at, e, xs[..n], drop) + if Erasable(at, e, xs, drop, n) then [] else [xs[n]]
  }

  function ErasedTrail(at: Setting, e: State, xs: seq<Entry>, drop: set<nat>): seq<Audit> {
    if xs == [] then []
    else
      var n := |xs| - 1;
      ErasedTrail(at, e, xs[..n], drop) + if Erasable(at, e, xs, drop, n) then [] else [Trail(at, e, xs)[n]]
  }

  // Leaving out any of the entries that were turned away changes neither the final engine nor the
  // audit of any entry that stays.
  lemma {:induction false} ErasingRejectedEntries(at: Setting, e: State, xs: seq<Entry>, drop: set<nat>)
    ensures Replayed(at, e, Erased(at, e, xs, drop)) == Replayed(at, e, xs)
    ensures Trail(at, e, Erased(at, e, xs, drop)) == ErasedTrail(at, e, xs, drop)
  {
    hide Admits, JudgedAudit;
    if xs != [] {
      var n := |xs| - 1;
      ErasingRejectedEntries(at, e, xs[..n], drop);
      var kept := Erased(at, e, xs[..n], drop);
      assert xs[..n][..] == xs[..n];
      if Erasable(at, e, xs, drop, n) {
        assert kept + [] == kept;
      } else {
        assert (kept + [xs[n]])[..|kept|] == kept;
      }
    }
  }
}
