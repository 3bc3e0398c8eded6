/** Runs in which no UUID is drawn twice: the database errors that only a repeated id could
    cause never reach a caller. */
module ProtocolFreshIds {
  import opened Ordering
  import opened Integrity
  import opened Store
  import opened StoreInvariants
  import opened Accounting
  import opened Protocol
  import opened ProtocolInvariants
  import opened ProtocolRuns
  import opened ProtocolTheorems
  import L = Ledger
  import W = LedgerWrites

  /** Every step draws a UUID of its own. */
  ghost predicate DistinctIds(actions: seq<Action>) {
    forall i, j | 0 <= i < j < |actions| && actions[i].Advance? && actions[j].Advance? ::
      actions[i].choice.newId != actions[j].choice.newId
  }

  ghost predicate Drawn(actions: seq<Action>, d: Id) {
    exists i :: 0 <= i < |actions| && actions[i].Advance? && actions[i].choice.newId == d
  }

  /** A call that recovers from a failed save finds its key held. */
  predicate Recovers(db: Database, p: Id, input: Input, pc: Pc) {
    && (pc == AuthorizeLookup(true) ==> input.AuthorizeInput? && input.key.Some? && (p, input.key.value) in db.idempotency)
    && pc != Done(DatabaseError)
  }

  lemma EntryRecovers(db: Database, p: Id, input: Input, now: Instant)
    ensures Recovers(db, p, input, Entry(p, input, now))
  {
  }

  lemma StepRecovers(s: Settings, db: Database, p: Id, input: Input, pc: Pc, choice: Choice)
    requires DbOk(s, db) && p in db.projects && PcOk(s, db, p, input, pc) && Recovers(db, p, input, pc)
    requires s.approvalTtl > 0 && choice.newId !in db.ledger.decisions
    ensures var next := Step(s, db, p, input, pc, choice); Recovers(next.db, p, input, next.pc)
  {
    hide DbOk, SaveAuthorization, Approve, Reject, Consume, LapseGrant, ExpireDue;
    if pc.AuthorizeSave? && choice.evaluation.Some? {
      LosingSaveFindsWinner(s, db, p, input, choice);
    }
  }

  lemma StepDraws(s: Settings, db: Database, p: Id, input: Input, pc: Pc, choice: Choice)
    requires DbOk(s, db) && p in db.projects && PcOk(s, db, p, input, pc)
    ensures forall d :: d in Step(s, db, p, input, pc, choice).db.ledger.decisions ==> d in db.ledger.decisions || d == choice.newId
  {
    hide Accounted, DatesOk, Consistent, PcOk, StepApprove, StepReject, StepConsume, W.Append;
    var next := Step(s, db, p, input, pc, choice);
    if Persists(input, pc, next) {
      SaveFootprint(s, db, p, input, choice);
    } else {
      StepFootprint(s, db, p, input, pc, choice);
    }
  }

  ghost predicate AllRecover(c: Config) {
    forall id :: id in c.calls ==> Recovers(c.db, c.calls[id].project, c.calls[id].input, c.calls[id].pc)
  }

  lemma ApplyRecovers(c: Config, action: Action)
    requires Inv(c) && AllRecover(c) && c.settings.approvalTtl > 0
    requires action.Advance? ==> action.choice.newId !in c.db.ledger.decisions
    ensures AllRecover(Apply(c, action))
    ensures forall d :: d in Apply(c, action).db.ledger.decisions ==>
              d in c.db.ledger.decisions || (action.Advance? && d == action.choice.newId)
  {
    hide Inv, Step, Entry, Recovers;
    ApplyKeeps(c, action);
    KeysStay(c, Apply(c, action));
    if action.Begin? {
      EntryRecovers(c.db, action.project, action.input, action.now);
    } else if action.Advance? && action.call in c.calls {
      var call := c.calls[action.call];
      CallKnown(c, action.call);
      StepRecovers(c.settings, c.db, call.project, call.input, call.pc, action.choice);
      StepDraws(c.settings, c.db, call.project, call.input, call.pc, action.choice);
    }
  }

  /** A key that is held stays held. */
  lemma KeysStay(c: Config, u: Config)
    requires Evolves(c.db, u.db) && AllRecover(c)
    ensures forall id :: id in c.calls ==> Recovers(u.db, c.calls[id].project, c.calls[id].input, c.calls[id].pc)
  {
  }

  lemma {:induction false} RunRecovers(settings: Settings, projects: set<Id>, actions: seq<Action>)
    requires settings.approvalTtl > 0 && DistinctIds(actions)
    ensures var c := Run(Initially(settings, projects), actions);
            AllRecover(c) && forall d :: d in c.db.ledger.decisions ==> Drawn(actions, d)
    decreases |actions|
  {
    hide Inv, Apply, Recovers;
    if actions != [] {
      var n := |actions| - 1;
      RunRecovers(settings, projects, actions[..n]);
      InitiallyOk(settings, projects);
      RunKeeps(Initially(settings, projects), actions[..n]);
      var before := Run(Initially(settings, projects), actions[..n]);
      forall d | Drawn(actions[..n], d) ensures Drawn(actions, d) && (actions[n].Advance? ==> d != actions[n].choice.newId) {
        var i :| 0 <= i < n && actions[..n][i].Advance? && actions[..n][i].choice.newId == d;
        assert actions[i] == actions[..n][i];
      }
      ApplyRecovers(before, actions[n]);
      if actions[n].Advance? {
        assert Drawn(actions, actions[n].choice.newId);
      }
    }
  }

  /** With a positive approval lifetime and no UUID drawn twice, no call of any kind ends in a
      database error: a keyed authorization that loses its save always finds the winner. */
  lemma NoDatabaseError(settings: Settings, projects: set<Id>, actions: seq<Action>, id: Id)
    requires settings.approvalTtl > 0 && DistinctIds(actions)
    requires id in Run(Initially(settings, projects), actions).calls
    ensures Run(Initially(settings, projects), actions).calls[id].pc != Done(DatabaseError)
  {
    hide Run, Initially;
    RunRecovers(settings, projects, actions);
  }

  /** Whatever ids are drawn, a call that is no authorization never ends in one. */
  lemma OnlyAuthorizationsFail(c: Config, id: Id)
    requires Reachable(c) && id in c.calls && c.calls[id].pc == Done(DatabaseError)
    ensures c.calls[id].input.AuthorizeInput?
  {
    AnswerIsTrue(c, id);
  }

  /** The write of an approver with a new grant id goes through exactly when the approval is
      still pending, its window is open and the grant would have a lifetime. */
  lemma ApproveWriteSucceedsIff(s: Settings, db: Database, p: Id, input: Input, grant: Grant, actor: string)
    requires DbOk(s, db) && input.ApproveInput? && PcOk(s, db, p, input, ApproveWrite(grant))
    requires forall e :: e in db.grants ==> db.grants[e].payload.grantId != grant.payload.grantId
    ensures input.decisionId in db.approvals
    ensures Approve(db, grant, actor, input.at).Ok?
            <==> var approval := db.approvals[input.decisionId];
                 approval.status == Pending && approval.requestedAt <= input.at < approval.requestedAt + s.approvalTtl
                 && s.grantTtl > 0
  {
    hide Accounted, LedgerOk, IdempotencyOk;
    GrantTargetHasApproval(db, p, input, grant, s);
    ApprovalHasDecision(db, input.decisionId, p);
    ApproveAllOrNothing(db, grant, actor);
    forall e | e in db.grants ensures db.grants[e].tokenHash == HashOfToken(db.grants[e].payload) {
      assert GrantOk(db, e);
    }
  }
}
