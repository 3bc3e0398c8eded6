/** The protocol over whole runs: what every reachable configuration satisfies, for any
    number of concurrent callers and any interleaving of their reads and writes. */
module ProtocolRuns {
  import opened Ordering
  import opened Integrity
  import opened Store
  import opened StoreInvariants
  import opened Accounting
  import opened Protocol
  import opened ProtocolInvariants
  import L = Ledger
  import W = LedgerWrites

  // ---------------------------------------------------------------- the invariant

  ghost predicate CallsOk(c: Config) {
    forall id :: id in c.calls ==>
      var call := c.calls[id];
      call.project in c.db.projects && PcOk(c.settings, c.db, call.project, call.input, call.pc)
  }

  predicate HasConsumed(call: Call, d: Id) {
    call.pc.Done? && call.pc.answer.ConsumedAs? && call.pc.answer.grant.payload.decisionId == d
  }

  predicate ConsumedIn(db: Database, d: Id) {
    d in db.grants && db.grants[d].status == Consumed
  }

  /** The history variable names, for each consumed grant, the one call that consumed it. */
  ghost predicate ConsumersOk(c: Config) {
    && (forall d :: d in c.consumers <==> ConsumedIn(c.db, d))
    && (forall d :: d in c.consumers ==> c.consumers[d] in c.calls && HasConsumed(c.calls[c.consumers[d]], d))
    && (forall id, d :: id in c.calls && HasConsumed(c.calls[id], d) ==> d in c.consumers && c.consumers[d] == id)
  }

  ghost predicate SaveOk(db: Database, save: Saved) {
    && save.decisionId in db.ledger.decisions && db.ledger.decisions[save.decisionId].projectId == save.project
    && (save.key.Some? ==> (save.project, save.key.value) in db.idempotency
                           && db.idempotency[(save.project, save.key.value)].decisionId == save.decisionId)
  }

  /** The log of saves lists every stored decision once. */
  ghost predicate SavesListed(db: Database, saves: seq<Saved>) {
    && (forall i :: 0 <= i < |saves| ==> SaveOk(db, saves[i]))
    && (forall i, j :: 0 <= i < j < |saves| ==> saves[i].decisionId != saves[j].decisionId)
    && (forall d :: d in db.ledger.decisions ==> exists i :: 0 <= i < |saves| && saves[i].decisionId == d)
  }

  ghost predicate SavesOk(c: Config) {
    SavesListed(c.db, c.saves)
  }

  ghost predicate Inv(c: Config) {
    DbOk(c.settings, c.db) && CallsOk(c) && ConsumersOk(c) && SavesOk(c)
  }

  // ---------------------------------------------------------------- footprints of steps

  ghost predicate SameConsumed(a: Database, b: Database) {
    forall d :: ConsumedIn(a, d) <==> ConsumedIn(b, d)
  }

  predicate Consumes(pc: Pc, next: Next) {
    pc.ConsumeWrite? && next.pc.Done? && next.pc.answer.ConsumedAs?
  }

  predicate Persists(input: Input, pc: Pc, next: Next) {
    pc.AuthorizeSave? && input.AuthorizeInput? && next.pc.Done? && next.pc.answer.Authorized?
  }

  predicate SameSaved(a: Database, b: Database) {
    a.ledger == b.ledger && a.idempotency == b.idempotency
  }

  lemma {:induction false} ExpireDueFootprint(db: Database, p: Id, at: Instant, due: seq<Id>)
    ensures var u := ExpireDue(db, p, at, due);
            u.ledger == db.ledger && u.grants == db.grants && u.idempotency == db.idempotency
    decreases |due|
  {
    if due != [] {
      ExpireDueFootprint(db, p, at, due[..|due| - 1]);
    }
  }

  /** Only a successful consumption consumes, only a successful save saves, and a failed
      or losing transaction leaves the database exactly as it was. */
  lemma StepFootprint(s: Settings, db: Database, p: Id, input: Input, pc: Pc, choice: Choice)
    requires Consistent(db) && PcOk(s, db, p, input, pc)
    ensures var next := Step(s, db, p, input, pc, choice);
            && (!Persists(input, pc, next) ==> SameSaved(db, next.db))
            && (!Consumes(pc, next) ==> SameConsumed(db, next.db))
            && (pc.AuthorizeSave? && !Persists(input, pc, next) ==> next.db == db)
            && (forall d :: HasConsumed(Call(p, input, next.pc), d) ==> Consumes(pc, next) || pc == next.pc)
  {
    hide Consistent, SaveAuthorization, Approve, Reject, Consume, LapseGrant, ExpireDue, SameSaved, SameConsumed;
    SameRefl(db);
    match pc
    case SweepWrite(at, due, next) =>
      ExpireDueFootprint(db, p, at, due);
      SameRows(db, ExpireDue(db, p, at, due));
    case ApproveWrite(grant) => ApproveFootprint(db, grant, input.actor, input.at);
    case RejectWrite => RejectFootprint(db, input.decisionId, p, input.actor, input.at);
    case ConsumeLapse => LapseFootprint(db, input.token.value, input.at);
    case AuthorizeSave => SaveLeavesGrants(db);
    case ConsumeWrite => ConsumedRow(db, input.token.value, input.actor, input.at);
    case _ =>
  }

  lemma SaveLeavesGrants(db: Database)
    ensures forall authorization, approval, idempotency ::
              var u := SaveAuthorization(db, authorization, approval, idempotency);
              u.Some? ==> SameConsumed(db, u.value)
  {
  }

  lemma ConsumedRow(db: Database, payload: Payload, actor: string, at: Instant)
    ensures var u := Consume(db, payload, HashOfToken(payload), actor, at);
            u.Some? ==> SameSaved(db, u.value) && payload.decisionId in u.value.grants
  {
  }

  lemma SameRefl(db: Database)
    ensures SameSaved(db, db) && SameConsumed(db, db)
  {
  }

  lemma SameRows(db: Database, u: Database)
    requires u.ledger == db.ledger && u.grants == db.grants && u.idempotency == db.idempotency
    ensures SameSaved(db, u) && SameConsumed(db, u)
  {
  }

  lemma ApproveFootprint(db: Database, grant: Grant, actor: string, at: Instant)
    ensures Approve(db, grant, actor, at).Ok? ==>
              SameSaved(db, Approve(db, grant, actor, at).value) && SameConsumed(db, Approve(db, grant, actor, at).value)
  {
  }

  lemma RejectFootprint(db: Database, d: Id, p: Id, actor: string, at: Instant)
    ensures Reject(db, d, p, actor, at).Ok? ==>
              SameSaved(db, Reject(db, d, p, actor, at).value) && SameConsumed(db, Reject(db, d, p, actor, at).value)
  {
  }

  lemma LapseFootprint(db: Database, payload: Payload, at: Instant)
    ensures LapseGrant(db, payload, at).Some? ==>
              SameSaved(db, LapseGrant(db, payload, at).value) && SameConsumed(db, LapseGrant(db, payload, at).value)
  {
  }

  lemma ConsumeFootprint(s: Settings, db: Database, p: Id, input: Input, pc: Pc, choice: Choice)
    requires PcOk(s, db, p, input, pc) && Consumes(pc, Step(s, db, p, input, pc, choice))
    ensures var next := Step(s, db, p, input, pc, choice);
            var d := next.pc.answer.grant.payload.decisionId;
            && !ConsumedIn(db, d) && SameSaved(db, next.db)
            && forall e :: ConsumedIn(next.db, e) <==> e == d || ConsumedIn(db, e)
  {
  }

  // ---------------------------------------------------------------- preservation

  lemma ApplyKeeps(c: Config, action: Action)
    requires Inv(c)
    ensures Inv(Apply(c, action)) && Evolves(c.db, Apply(c, action).db)
  {
    match action
    case Begin(id, p, input, now) => BeginKeeps(c, action);
    case Administer(p) => AdministerKeeps(c, p);
    case Advance(id, choice) =>
      if id in c.calls {
        AdvanceKeeps(c, id, choice);
      } else {
        EvolvesRefl(c.db);
      }
  }

  lemma BeginKeeps(c: Config, action: Action)
    requires Inv(c) && action.Begin?
    ensures Inv(Apply(c, action)) && Evolves(c.db, Apply(c, action).db)
  {
    hide DbOk, Evolves, SavesOk, ConsumersOk, CallsOk, Entry;
    EvolvesRefl(c.db);
    SameSaves(c, Apply(c, action));
    BeginCalls(c, action);
    BeginConsumers(c, action);
  }

  lemma BeginCalls(c: Config, action: Action)
    requires CallsOk(c) && action.Begin?
    ensures CallsOk(Apply(c, action))
  {
    EntryOk(c.settings, c.db, action.project, action.input, action.now);
    hide PcOk, Entry;
  }

  lemma EntryOk(s: Settings, db: Database, p: Id, input: Input, now: Instant)
    ensures PcOk(s, db, p, input, Entry(p, input, now))
    ensures forall d :: !HasConsumed(Call(p, input, Entry(p, input, now)), d)
  {
  }

  lemma BeginConsumers(c: Config, action: Action)
    requires ConsumersOk(c) && action.Begin?
    ensures ConsumersOk(Apply(c, action))
  {
    EntryOk(c.settings, c.db, action.project, action.input, action.now);
    hide Entry, PcOk;
  }

  lemma SameSaves(c: Config, u: Config)
    requires SavesOk(c) && u.db == c.db && u.saves == c.saves
    ensures SavesOk(u)
  {
  }

  lemma OthersKeep(c: Config, u: Config, id: Id)
    requires CallsOk(c) && Evolves(c.db, u.db) && u.settings == c.settings && id in c.calls && id in u.calls
    requires u.calls == c.calls[id := u.calls[id]]
    requires u.calls[id].project == c.calls[id].project
    requires PcOk(u.settings, u.db, u.calls[id].project, u.calls[id].input, u.calls[id].pc)
    ensures CallsOk(u)
  {
    hide PcOk;
    forall other | other in u.calls
      ensures u.calls[other].project in u.db.projects
              && PcOk(u.settings, u.db, u.calls[other].project, u.calls[other].input, u.calls[other].pc)
    {
      if other != id {
        var call := c.calls[other];
        StablePc(c.settings, c.db, u.db, call.project, call.input, call.pc);
      }
    }
  }

  lemma AdministerKeeps(c: Config, p: Id)
    requires Inv(c)
    ensures Inv(Apply(c, Administer(p))) && Evolves(c.db, Apply(c, Administer(p)).db)
  {
    hide Consistent, Accounted, DatesOk, PcOk;
    var u := Apply(c, Administer(p));
    if p in c.db.projects {
      OtherChangeKeepsBooks(c.db, p);
      OtherChangeKeeps(c.settings, c.db, p);
      forall other | other in u.calls
        ensures PcOk(u.settings, u.db, u.calls[other].project, u.calls[other].input, u.calls[other].pc)
      {
        var call := c.calls[other];
        StablePc(c.settings, c.db, u.db, call.project, call.input, call.pc);
      }
    } else {
      EvolvesRefl(c.db);
    }
  }

  lemma OtherChangeKeeps(s: Settings, db: Database, p: Id)
    requires Consistent(db) && DatesOk(s, db)
    ensures var u := Record(db, OtherChange(p)); Consistent(u) && DatesOk(s, u) && Evolves(db, u)
  {
    hide LedgerOk, ApprovalsOk, GrantsOk, IdempotencyOk;
    var u := Record(db, OtherChange(p));
    LedgerKept(db, u);
    SameApprovals(db, u);
    IdempotencyKept(db, u);
    SameGrants(db, u);
  }

  lemma SameGrants(db: Database, u: Database)
    requires GrantsOk(db) && u.ledger == db.ledger && u.approvals == db.approvals && u.grants == db.grants
    ensures GrantsOk(u)
  {
    forall e | e in u.grants ensures GrantOk(u, e) {
      assert GrantOk(db, e);
      GrantKept(db, u, e);
    }
  }

  lemma AdvanceKeeps(c: Config, id: Id, choice: Choice)
    requires Inv(c) && id in c.calls
    ensures Inv(Apply(c, Advance(id, choice))) && Evolves(c.db, Apply(c, Advance(id, choice)).db)
  {
    hide Consistent, Accounted, DatesOk, PcOk, Evolves, Step, ConsumersOk, SavesOk;
    var call := c.calls[id];
    var u := Apply(c, Advance(id, choice));
    StepKeeps(c.settings, c.db, call.project, call.input, call.pc, choice);
    OthersKeep(c, u, id);
    AdvanceConsumers(c, id, choice);
    AdvanceSaves(c, id, choice);
  }

  lemma CallIsOk(c: Config, id: Id)
    requires CallsOk(c) && id in c.calls
    ensures var call := c.calls[id];
            call.project in c.db.projects && PcOk(c.settings, c.db, call.project, call.input, call.pc)
  {
    hide PcOk;
  }

  lemma AdvanceConsumers(c: Config, id: Id, choice: Choice)
    requires Inv(c) && id in c.calls
    ensures ConsumersOk(Apply(c, Advance(id, choice)))
  {
    hide Consistent, Accounted, DatesOk, PcOk, Step, SavesOk, SameSaved, ConsumersOk;
    var call := c.calls[id];
    var next := Step(c.settings, c.db, call.project, call.input, call.pc, choice);
    if Consumes(call.pc, next) {
      ConsumeFootprint(c.settings, c.db, call.project, call.input, call.pc, choice);
      OneMoreConsumer(c, Apply(c, Advance(id, choice)), id, next.pc.answer.grant.payload.decisionId);
    } else {
      StepFootprint(c.settings, c.db, call.project, call.input, call.pc, choice);
      DoneStays(c.settings, c.db, call.project, call.input, call.pc, choice);
      NoConsumer(c, Apply(c, Advance(id, choice)), id);
    }
  }

  lemma OneMoreConsumer(c: Config, u: Config, id: Id, d: Id)
    requires ConsumersOk(c) && id in c.calls && id in u.calls
    requires u.consumers == c.consumers[d := id] && u.calls == c.calls[id := u.calls[id]]
    requires forall e :: !HasConsumed(c.calls[id], e)
    requires forall e :: HasConsumed(u.calls[id], e) <==> e == d
    requires !ConsumedIn(c.db, d) && forall e :: ConsumedIn(u.db, e) <==> e == d || ConsumedIn(c.db, e)
    ensures ConsumersOk(u)
  {
    hide HasConsumed, ConsumedIn;
  }

  lemma NoConsumer(c: Config, u: Config, id: Id)
    requires ConsumersOk(c) && id in c.calls && id in u.calls
    requires u.consumers == c.consumers && u.calls == c.calls[id := u.calls[id]] && SameConsumed(c.db, u.db)
    requires forall e :: HasConsumed(u.calls[id], e) <==> HasConsumed(c.calls[id], e)
    ensures ConsumersOk(u)
  {
    hide HasConsumed, ConsumedIn;
  }

  lemma DoneStays(s: Settings, db: Database, p: Id, input: Input, pc: Pc, choice: Choice)
    requires Consistent(db) && PcOk(s, db, p, input, pc) && !Consumes(pc, Step(s, db, p, input, pc, choice))
    ensures forall d :: HasConsumed(Call(p, input, Step(s, db, p, input, pc, choice).pc), d) <==> HasConsumed(Call(p, input, pc), d)
  {
    hide Consistent, PcOk, StepAuthorize, StepApprove, StepReject, StepConsume;
    StepFootprint(s, db, p, input, pc, choice);
  }

  lemma AdvanceSaves(c: Config, id: Id, choice: Choice)
    requires Inv(c) && id in c.calls
    ensures SavesOk(Apply(c, Advance(id, choice)))
  {
    CallIsOk(c, id);
    hide Consistent, Accounted, DatesOk, CallsOk, PcOk, Step, ConsumersOk, SavesListed, SaveOk;
    var call := c.calls[id];
    var next := Step(c.settings, c.db, call.project, call.input, call.pc, choice);
    var u := Apply(c, Advance(id, choice));
    if Persists(call.input, call.pc, next) {
      SaveFootprint(c.settings, c.db, call.project, call.input, choice);
      var save := Saved(call.project, call.input.key, next.pc.answer.authorization.decisionId);
      assert u.saves == c.saves + [save];
      OneMoreSave(c.db, u.db, c.saves, save);
    } else {
      StepFootprint(c.settings, c.db, call.project, call.input, call.pc, choice);
      NoSave(c.db, u.db, c.saves);
    }
  }

  lemma OneMoreSave(db: Database, u: Database, saves: seq<Saved>, save: Saved)
    requires SavesListed(db, saves) && SaveOk(u, save) && save.decisionId !in db.ledger.decisions
    requires u.ledger.decisions.Keys == db.ledger.decisions.Keys + {save.decisionId}
    requires forall e :: e in db.ledger.decisions ==> u.ledger.decisions[e] == db.ledger.decisions[e]
    requires forall k :: k in db.idempotency ==> k in u.idempotency && u.idempotency[k] == db.idempotency[k]
    ensures SavesListed(u, saves + [save])
  {
    var longer := saves + [save];
    forall i | 0 <= i < |longer| ensures SaveOk(u, longer[i]) {
      assert i < |saves| ==> SaveOk(db, saves[i]);
    }
    forall d | d in u.ledger.decisions ensures exists i :: 0 <= i < |longer| && longer[i].decisionId == d {
      if d == save.decisionId {
        assert longer[|saves|].decisionId == d;
      } else {
        var i :| 0 <= i < |saves| && saves[i].decisionId == d;
        assert longer[i].decisionId == d;
      }
    }
  }

  lemma NoSave(db: Database, u: Database, saves: seq<Saved>)
    requires SavesListed(db, saves) && SameSaved(db, u)
    ensures SavesListed(u, saves)
  {
    forall i | 0 <= i < |saves| ensures SaveOk(u, saves[i]) {
      assert SaveOk(db, saves[i]);
    }
  }

  lemma SaveFootprint(s: Settings, db: Database, p: Id, input: Input, choice: Choice)
    requires Consistent(db) && input.AuthorizeInput?
    requires Persists(input, AuthorizeSave, Step(s, db, p, input, AuthorizeSave, choice))
    requires p in db.projects
    ensures var next := Step(s, db, p, input, AuthorizeSave, choice);
            var d := next.pc.answer.authorization.decisionId;
            && d !in db.ledger.decisions
            && next.db.ledger.decisions.Keys == db.ledger.decisions.Keys + {d}
            && SaveOk(next.db, Saved(p, input.key, d))
            && (forall e :: e in db.ledger.decisions ==> next.db.ledger.decisions[e] == db.ledger.decisions[e])
            && (forall k :: k in db.idempotency ==> k in next.db.idempotency && next.db.idempotency[k] == db.idempotency[k])
  {
    hide W.Append, Consistent;
    var next := Step(s, db, p, input, AuthorizeSave, choice);
    var authorization := next.pc.answer.authorization;
    LedgerIsSound(db);
    W.AppendKeepsSound(db.ledger, authorization);
  }

  lemma LedgerIsSound(db: Database)
    requires Consistent(db)
    ensures W.Sound(db.ledger)
  {
    hide W.Sound, ApprovalsOk, GrantsOk, IdempotencyOk;
  }

  // ---------------------------------------------------------------- reachable configurations

  lemma InitiallyOk(settings: Settings, projects: set<Id>)
    ensures Inv(Initially(settings, projects))
  {
    var c := Initially(settings, projects);
    forall q: Id ensures W.SoundProject(c.db.ledger, q) {
      assert L.RecordIds(c.db.ledger, q) == {} && L.DecisionIds(c.db.ledger, q) == {};
    }
    assert Start(c.db) == ViewOf(c.db);
    forall p | p in c.db.projects ensures Balanced(c.db, p) {
      assert L.DecisionIds(c.db.ledger, p) == {} && ApprovalIds(c.db, p) == {};
    }
  }

  ghost predicate Reachable(c: Config) {
    exists settings, projects, actions :: Run(Initially(settings, projects), actions) == c
  }

  lemma {:induction false} RunKeeps(c: Config, actions: seq<Action>)
    requires Inv(c)
    ensures Inv(Run(c, actions)) && Evolves(c.db, Run(c, actions).db) && Run(c, actions).settings == c.settings
    decreases |actions|
  {
    hide Inv, Evolves, Apply;
    if actions == [] {
      EvolvesRefl(c.db);
    } else {
      var n := |actions| - 1;
      RunKeeps(c, actions[..n]);
      var before := Run(c, actions[..n]);
      ApplyKeeps(before, actions[n]);
      EvolvesTrans(c.db, before.db, Run(c, actions).db);
      SettingsStay(before, actions[n]);
    }
  }

  lemma SettingsStay(c: Config, action: Action)
    ensures Apply(c, action).settings == c.settings
  {
  }

  lemma ReachableOk(c: Config)
    requires Reachable(c)
    ensures Inv(c)
  {
    hide Inv;
    var settings, projects, actions :| Run(Initially(settings, projects), actions) == c;
    InitiallyOk(settings, projects);
    RunKeeps(Initially(settings, projects), actions);
  }
}
