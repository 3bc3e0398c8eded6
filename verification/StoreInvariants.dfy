/** What every committed transaction keeps: the consistency of the tables, and the
    direction in which rows may change. */
module StoreInvariants {
  import opened Ordering
  import opened Integrity
  import opened Store
  import L = Ledger
  import W = LedgerWrites

  // ---------------------------------------------------------------- consistency

  ghost predicate ReadableDecision(db: Database, d: Id) {
    d in db.ledger.decisions && db.ledger.decisions[d].body.Some?
  }

  function BodyOf(db: Database, d: Id): Body
    requires ReadableDecision(db, d)
  {
    db.ledger.decisions[d].body.value
  }

  ghost predicate LedgerOk(db: Database) {
    && W.Sound(db.ledger)
    && forall d :: d in db.ledger.decisions ==> ReadableDecision(db, d) && db.ledger.decisions[d].projectId in db.projects
  }

  /** An approval row as the service layer leaves it. */
  ghost predicate ApprovalOk(approval: Approval) {
    && ApprovalChecks(approval)
    && (approval.resolvedAt.Some? ==> approval.requestedAt <= approval.resolvedAt.value)
    && (approval.status == Expired ==>
          approval.expiresAt.Some? && approval.expiresAt.value <= approval.resolvedAt.value
          && approval.resolvedBy == Some(EXPIRATION_ACTOR))
    && (approval.status in {Approved, Rejected} && approval.expiresAt.Some? ==>
          approval.resolvedAt.value < approval.expiresAt.value)
  }

  ghost predicate ApprovalsOk(db: Database) {
    && (forall d :: d in db.approvals ==>
          ReadableDecision(db, d) && BodyOf(db, d).outcome == RequireApproval && ApprovalOk(db.approvals[d]))
    && (forall d :: ReadableDecision(db, d) && BodyOf(db, d).outcome == RequireApproval ==> d in db.approvals)
  }

  /** A grant row: bound to its decision's project and request, issued when its approval was
      resolved, regenerable, and with consumption data exactly when consumed in time. */
  ghost predicate GrantOk(db: Database, d: Id)
    requires d in db.grants
  {
    var grant := db.grants[d];
    && grant.payload.decisionId == d
    && ReadableDecision(db, d)
    && grant.payload.projectId == db.ledger.decisions[d].projectId
    && grant.payload.fingerprint == FingerprintOf(BodyOf(db, d).request)
    && grant.tokenHash == HashOfToken(grant.payload)
    && grant.payload.issuedAt < grant.payload.expiresAt
    && d in db.approvals && db.approvals[d].status == Approved
    && db.approvals[d].resolvedAt == Some(grant.payload.issuedAt)
    && (grant.status == Consumed <==> grant.consumedAt.Some?)
    && (grant.status == Consumed <==> grant.consumedBy.Some?)
    && (grant.consumedAt.Some? ==> grant.consumedAt.value < grant.payload.expiresAt)
  }

  ghost predicate GrantsOk(db: Database) {
    && (forall d :: d in db.grants ==> GrantOk(db, d))
    && (forall d :: d in db.approvals && db.approvals[d].status == Approved ==> d in db.grants)
    && (forall d, e | d in db.grants && e in db.grants :: db.grants[d].payload.grantId == db.grants[e].payload.grantId ==> d == e)
  }

  ghost predicate IdempotencyOk(db: Database) {
    && (forall k :: k in db.idempotency ==>
          var record := db.idempotency[k];
          && ReadableDecision(db, record.decisionId)
          && db.ledger.decisions[record.decisionId].projectId == k.0
          && record.fingerprint == FingerprintOf(BodyOf(db, record.decisionId).request))
    && (forall j, k | j in db.idempotency && k in db.idempotency ::
          db.idempotency[j].decisionId == db.idempotency[k].decisionId ==> j == k)
  }

  ghost predicate Consistent(db: Database) {
    LedgerOk(db) && ApprovalsOk(db) && GrantsOk(db) && IdempotencyOk(db)
  }

  // ---------------------------------------------------------------- direction of change

  /** Identity columns never change and a resolved approval is frozen. */
  predicate ApprovalStep(a: Approval, b: Approval) {
    b == a || (a.status == Pending && b.status != Pending && b.requestedAt == a.requestedAt && b.expiresAt == a.expiresAt)
  }

  predicate GrantStep(a: Grant, b: Grant) {
    b == a || (a.status == Active && b.status != Active && b.payload == a.payload && b.tokenHash == a.tokenHash)
  }

  ghost predicate Evolves(a: Database, b: Database) {
    && b.projects == a.projects
    && W.Grows(a.ledger, b.ledger)
    && (forall d :: d in a.approvals ==> d in b.approvals && ApprovalStep(a.approvals[d], b.approvals[d]))
    && (forall d :: d in a.grants ==> d in b.grants && GrantStep(a.grants[d], b.grants[d]))
    && (forall k :: k in a.idempotency ==> k in b.idempotency && b.idempotency[k] == a.idempotency[k])
    && a.audit <= b.audit && a.outbox <= b.outbox
  }

  lemma EvolvesTrans(a: Database, b: Database, c: Database)
    requires Evolves(a, b) && Evolves(b, c)
    ensures Evolves(a, c)
  {
  }

  // ---------------------------------------------------------------- transactions

  /** What authorize_request builds. */
  ghost predicate ServiceAuthorization(db: Database, authorization: Authorization, approval: Option<Approval>,
                                       idempotency: Option<(string, Fingerprint)>) {
    && authorization.projectId in db.projects
    && (approval.Some? <==> authorization.body.outcome == RequireApproval)
    && (approval.Some? ==> approval.value.status == Pending
                           && approval.value.requestedAt == authorization.body.evaluatedAt)
    && (idempotency.Some? ==> idempotency.value.1 == FingerprintOf(authorization.body.request))
  }

  lemma LedgerKept(db: Database, u: Database)
    requires LedgerOk(db) && u.ledger == db.ledger && u.projects == db.projects
    ensures LedgerOk(u)
  {
    hide W.Sound;
    assert forall d :: d in u.ledger.decisions ==> ReadableDecision(db, d) && ReadableDecision(u, d);
  }

  lemma IdempotencyKept(db: Database, u: Database)
    requires IdempotencyOk(db) && u.ledger == db.ledger && u.idempotency == db.idempotency
    ensures IdempotencyOk(u)
  {
    forall k | k in u.idempotency
      ensures ReadableDecision(u, u.idempotency[k].decisionId)
              && u.ledger.decisions[u.idempotency[k].decisionId].projectId == k.0
              && u.idempotency[k].fingerprint == FingerprintOf(BodyOf(u, u.idempotency[k].decisionId).request)
    {
      assert ReadableDecision(db, db.idempotency[k].decisionId);
    }
  }

  lemma ApprovalsKept(db: Database, u: Database, d: Id)
    requires ApprovalsOk(db) && u.ledger == db.ledger && d in db.approvals && d in u.approvals
    requires u.approvals == db.approvals[d := u.approvals[d]] && ApprovalOk(u.approvals[d])
    ensures ApprovalsOk(u)
  {
    hide ApprovalOk;
    assert forall e :: ReadableDecision(u, e) <==> ReadableDecision(db, e);
    assert forall e :: ReadableDecision(u, e) ==> BodyOf(u, e) == BodyOf(db, e);
  }

  lemma GrantKept(db: Database, u: Database, e: Id)
    requires e in db.grants && GrantOk(db, e) && e in u.grants && u.grants[e] == db.grants[e]
    requires e in u.ledger.decisions && u.ledger.decisions[e] == db.ledger.decisions[e]
    requires e in u.approvals && u.approvals[e] == db.approvals[e]
    ensures GrantOk(u, e)
  {
    assert BodyOf(u, e) == BodyOf(db, e);
  }

  /** The decision table gained one readable row. */
  ghost predicate AddedDecision(db: Database, u: Database, authorization: Authorization) {
    && authorization.decisionId !in db.ledger.decisions
    && u.ledger.decisions == db.ledger.decisions[authorization.decisionId :=
                               L.DecisionRow(authorization.projectId, Some(authorization.body))]
  }

  lemma AppendedLedger(db: Database, u: Database, authorization: Authorization)
    requires LedgerOk(db) && u.projects == db.projects && authorization.projectId in db.projects
    requires W.Append(db.ledger, authorization) == Some(u.ledger)
    ensures LedgerOk(u) && W.Grows(db.ledger, u.ledger) && AddedDecision(db, u, authorization)
  {
    hide W.Append;
    W.AppendKeepsSound(db.ledger, authorization);
    assert forall e :: e in u.ledger.decisions ==> e == authorization.decisionId || ReadableDecision(db, e);
  }

  lemma SavedApprovals(db: Database, u: Database, authorization: Authorization, approval: Option<Approval>)
    requires ApprovalsOk(db) && AddedDecision(db, u, authorization)
    requires approval.Some? <==> authorization.body.outcome == RequireApproval
    requires approval.Some? ==> approval.value.status == Pending && ApprovalOk(approval.value)
    requires u.approvals == if approval.Some? then db.approvals[authorization.decisionId := approval.value] else db.approvals
    ensures ApprovalsOk(u)
  {
    hide ApprovalOk;
    var d := authorization.decisionId;
    assert !ReadableDecision(db, d) && ReadableDecision(u, d) && BodyOf(u, d) == authorization.body;
    forall e | e != d
      ensures ReadableDecision(u, e) <==> ReadableDecision(db, e)
      ensures ReadableDecision(db, e) ==> BodyOf(u, e) == BodyOf(db, e)
    {
    }
  }

  lemma SavedGrants(db: Database, u: Database, authorization: Authorization, approval: Option<Approval>)
    requires ApprovalsOk(db) && GrantsOk(db) && AddedDecision(db, u, authorization) && u.grants == db.grants
    requires approval.Some? ==> approval.value.status == Pending
    requires u.approvals == if approval.Some? then db.approvals[authorization.decisionId := approval.value] else db.approvals
    ensures GrantsOk(u)
  {
    forall e | e in u.grants ensures GrantOk(u, e) {
      assert GrantOk(db, e);
      GrantKept(db, u, e);
    }
  }

  lemma SavedIdempotency(db: Database, u: Database, authorization: Authorization, idempotency: Option<(string, Fingerprint)>)
    requires IdempotencyOk(db) && AddedDecision(db, u, authorization)
    requires idempotency.Some? ==> idempotency.value.1 == FingerprintOf(authorization.body.request)
                                   && (authorization.projectId, idempotency.value.0) !in db.idempotency
    requires u.idempotency == if idempotency.None? then db.idempotency
                              else db.idempotency[(authorization.projectId, idempotency.value.0) :=
                                                    IdempotencyRecord(idempotency.value.1, authorization.decisionId)]
    ensures IdempotencyOk(u)
  {
    forall k | k in u.idempotency
      ensures ReadableDecision(u, u.idempotency[k].decisionId)
              && u.ledger.decisions[u.idempotency[k].decisionId].projectId == k.0
              && u.idempotency[k].fingerprint == FingerprintOf(BodyOf(u, u.idempotency[k].decisionId).request)
    {
      if k in db.idempotency {
        assert ReadableDecision(db, db.idempotency[k].decisionId);
      }
    }
    forall j, k | j in u.idempotency && k in u.idempotency
      ensures u.idempotency[j].decisionId == u.idempotency[k].decisionId ==> j == k
    {
      assert j in db.idempotency ==> ReadableDecision(db, db.idempotency[j].decisionId);
      assert k in db.idempotency ==> ReadableDecision(db, db.idempotency[k].decisionId);
    }
  }

  lemma SaveKeeps(db: Database, authorization: Authorization, approval: Option<Approval>,
                  idempotency: Option<(string, Fingerprint)>)
    requires Consistent(db) && ServiceAuthorization(db, authorization, approval, idempotency)
    requires SaveAuthorization(db, authorization, approval, idempotency).Some?
    ensures var u := SaveAuthorization(db, authorization, approval, idempotency).value;
            Consistent(u) && Evolves(db, u) && AddedDecision(db, u, authorization)
  {
    hide W.Append, LedgerOk, ApprovalsOk, GrantsOk, IdempotencyOk, W.Grows;
    var u := SaveAuthorization(db, authorization, approval, idempotency).value;
    AppendedLedger(db, u, authorization);
    SavedApprovals(db, u, authorization, approval);
    SavedGrants(db, u, authorization, approval);
    SavedIdempotency(db, u, authorization, idempotency);
  }

  /** Only approval rows changed, one step each, and the two logs grew. */
  lemma ApprovalUpdateKeeps(db: Database, u: Database, d: Id)
    requires Consistent(db) && d in db.approvals && d in u.approvals
    requires u == db.(approvals := db.approvals[d := u.approvals[d]], audit := u.audit, outbox := u.outbox)
    requires ApprovalStep(db.approvals[d], u.approvals[d]) && ApprovalOk(u.approvals[d])
    requires u.approvals[d].status != Approved && db.approvals[d].status == Pending
    requires db.audit <= u.audit && db.outbox <= u.outbox
    ensures Consistent(u) && Evolves(db, u)
  {
    hide LedgerOk, ApprovalsOk, IdempotencyOk, ApprovalOk;
    LedgerKept(db, u);
    ApprovalsKept(db, u, d);
    IdempotencyKept(db, u);
    GrantsKeptByApproval(db, u, d);
  }

  lemma GrantsKeptByApproval(db: Database, u: Database, d: Id)
    requires GrantsOk(db) && u.ledger == db.ledger && u.grants == db.grants && d in db.approvals && d in u.approvals
    requires u.approvals == db.approvals[d := u.approvals[d]]
    requires u.approvals[d].status != Approved && db.approvals[d].status == Pending
    ensures GrantsOk(u)
  {
    forall e | e in u.grants ensures GrantOk(u, e) {
      assert GrantOk(db, e);
      GrantKept(db, u, e);
    }
  }

  /** Only a grant row changed, one step, and the two logs grew. */
  lemma GrantUpdateKeeps(db: Database, u: Database, d: Id)
    requires Consistent(db) && d in db.grants && d in u.grants
    requires u == db.(grants := db.grants[d := u.grants[d]], audit := u.audit, outbox := u.outbox)
    requires GrantStep(db.grants[d], u.grants[d]) && GrantOk(u, d)
    requires u.grants[d].payload == db.grants[d].payload
    requires db.audit <= u.audit && db.outbox <= u.outbox
    ensures Consistent(u) && Evolves(db, u)
  {
    hide LedgerOk, ApprovalsOk, IdempotencyOk;
    LedgerKept(db, u);
    IdempotencyKept(db, u);
    UpdatedGrants(db, u, d);
    SameApprovals(db, u);
  }

  lemma SameApprovals(db: Database, u: Database)
    requires ApprovalsOk(db) && u.ledger == db.ledger && u.approvals == db.approvals
    ensures ApprovalsOk(u)
  {
    hide ApprovalOk;
    assert forall e :: ReadableDecision(u, e) <==> ReadableDecision(db, e);
    assert forall e :: ReadableDecision(u, e) ==> BodyOf(u, e) == BodyOf(db, e);
  }

  lemma UpdatedGrants(db: Database, u: Database, d: Id)
    requires GrantsOk(db) && u.ledger == db.ledger && u.approvals == db.approvals
    requires d in db.grants && d in u.grants && u.grants == db.grants[d := u.grants[d]]
    requires GrantOk(u, d) && u.grants[d].payload == db.grants[d].payload
    ensures GrantsOk(u)
  {
    forall e | e in u.grants ensures GrantOk(u, e) {
      if e != d {
        assert GrantOk(db, e);
        GrantKept(db, u, e);
      }
    }
  }

  lemma ExpireOneKeeps(db: Database, p: Id, at: Instant, d: Id)
    requires Consistent(db)
    ensures Consistent(ExpireOne(db, p, at, d)) && Evolves(db, ExpireOne(db, p, at, d))
  {
    if d in db.approvals && DueNow(db.approvals[d], at) {
      ApprovalUpdateKeeps(db, ExpireOne(db, p, at, d), d);
    }
  }

  /** The sweep may write rows selected at any earlier moment: the guards make it safe. */
  lemma {:induction false} ExpireDueKeeps(db: Database, p: Id, at: Instant, due: seq<Id>)
    requires Consistent(db)
    ensures Consistent(ExpireDue(db, p, at, due)) && Evolves(db, ExpireDue(db, p, at, due))
    decreases |due|
  {
    if due != [] {
      var n := |due| - 1;
      ExpireDueKeeps(db, p, at, due[..n]);
      var u := ExpireDue(db, p, at, due[..n]);
      ExpireOneKeeps(u, p, at, due[n]);
      EvolvesTrans(db, u, ExpireOne(u, p, at, due[n]));
    }
  }

  lemma RejectKeeps(db: Database, d: Id, p: Id, actor: string, at: Instant)
    requires Consistent(db) && Reject(db, d, p, actor, at).Ok?
    ensures Consistent(Reject(db, d, p, actor, at).value) && Evolves(db, Reject(db, d, p, actor, at).value)
  {
    ApprovalUpdateKeeps(db, Reject(db, d, p, actor, at).value, d);
  }

  /** What approve_approval_request builds for a decision of the project. */
  ghost predicate ServiceGrant(db: Database, grant: Grant, at: Instant) {
    && ReadableDecision(db, grant.payload.decisionId)
    && db.ledger.decisions[grant.payload.decisionId].projectId == grant.payload.projectId
    && grant.payload.fingerprint == FingerprintOf(BodyOf(db, grant.payload.decisionId).request)
    && grant.tokenHash == HashOfToken(grant.payload)
    && grant.payload.issuedAt == at
  }

  lemma ApproveKeeps(db: Database, grant: Grant, actor: string, at: Instant)
    requires Consistent(db) && ServiceGrant(db, grant, at) && Approve(db, grant, actor, at).Ok?
    ensures Consistent(Approve(db, grant, actor, at).value) && Evolves(db, Approve(db, grant, actor, at).value)
  {
    hide LedgerOk, ApprovalsOk, IdempotencyOk, GrantsOk;
    var u := Approve(db, grant, actor, at).value;
    LedgerKept(db, u);
    IdempotencyKept(db, u);
    ApprovalsKept(db, u, grant.payload.decisionId);
    IssuedGrants(db, u, grant);
  }

  lemma IssuedGrants(db: Database, u: Database, grant: Grant)
    requires GrantsOk(db) && u.ledger == db.ledger && ServiceGrant(db, grant, grant.payload.issuedAt)
    requires grant.payload.decisionId in u.approvals && GrantInsertable(db, grant)
    requires u.grants == db.grants[grant.payload.decisionId := grant]
    requires u.approvals == db.approvals[grant.payload.decisionId := u.approvals[grant.payload.decisionId]]
    requires u.approvals[grant.payload.decisionId].status == Approved
             && u.approvals[grant.payload.decisionId].resolvedAt == Some(grant.payload.issuedAt)
    ensures GrantsOk(u)
  {
    var d := grant.payload.decisionId;
    assert BodyOf(u, d) == BodyOf(db, d);
    forall e | e in u.grants ensures GrantOk(u, e) {
      if e != d {
        assert GrantOk(db, e);
        GrantKept(db, u, e);
      }
    }
  }

  /** Inside the trigger's window nothing after the insert can fail: an approval that starts
      with an accepted grant is approved. */
  lemma ApproveAllOrNothing(db: Database, grant: Grant, actor: string)
    ensures Approve(db, grant, actor, grant.payload.issuedAt).Ok? <==> GrantInsertable(db, grant)
    ensures Approve(db, grant, actor, grant.payload.issuedAt).Err? ==>
              Approve(db, grant, actor, grant.payload.issuedAt).error == IntegrityConflict
  {
  }

  lemma ConsumeKeeps(db: Database, payload: Payload, tokenHash: TokenHash, actor: string, at: Instant)
    requires Consistent(db) && Consume(db, payload, tokenHash, actor, at).Some?
    ensures Consistent(Consume(db, payload, tokenHash, actor, at).value)
            && Evolves(db, Consume(db, payload, tokenHash, actor, at).value)
  {
    var u := Consume(db, payload, tokenHash, actor, at).value;
    assert GrantOk(db, payload.decisionId);
    assert GrantOk(u, payload.decisionId);
    GrantUpdateKeeps(db, u, payload.decisionId);
  }

  lemma LapseGrantKeeps(db: Database, payload: Payload, at: Instant)
    requires Consistent(db) && LapseGrant(db, payload, at).Some?
    ensures Consistent(LapseGrant(db, payload, at).value) && Evolves(db, LapseGrant(db, payload, at).value)
  {
    var u := LapseGrant(db, payload, at).value;
    assert GrantOk(db, payload.decisionId);
    assert GrantOk(u, payload.decisionId);
    GrantUpdateKeeps(db, u, payload.decisionId);
  }
}
