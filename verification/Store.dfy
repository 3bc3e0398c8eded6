/** app/storage/approvals.py, execution_grants.py and idempotency.py, with the constraints
    and triggers of app/storage/database.py: the tables of the authorization protocol and
    the write transactions of app/evidence_store.py.

    Every transaction is a function from the database it starts on to the one it commits;
    a failure result means the transaction rolled back. */
module Store {
  import opened Ordering
  import opened Integrity
  import L = Ledger
  import W = LedgerWrites

  datatype ApprovalStatus = Pending | Approved | Rejected | Expired

  datatype Approval = Approval(status: ApprovalStatus, requestedAt: Instant, expiresAt: Option<Instant>,
                               resolvedAt: Option<Instant>, resolvedBy: Option<string>)

  datatype GrantStatus = Active | Consumed | Lapsed

  /** SHA-256 of a canonical request, or a string that is not one. */
  datatype Fingerprint = FingerprintOf(request: Request) | ForgedFingerprint(bits: nat)

  datatype Payload = Payload(grantId: Id, decisionId: Id, projectId: Id, fingerprint: Fingerprint,
                             issuedAt: Instant, expiresAt: Instant)

  /** SHA-256 of a token. GrantTokens.dfy shows that, for a fixed secret, accepted tokens
      and payloads correspond one to one, so a token is named by its payload. */
  datatype TokenHash = HashOfToken(payload: Payload) | ForgedTokenHash(bits: nat)

  datatype Grant = Grant(payload: Payload, status: GrantStatus, tokenHash: TokenHash,
                         consumedAt: Option<Instant>, consumedBy: Option<string>)

  datatype IdempotencyRecord = IdempotencyRecord(fingerprint: Fingerprint, decisionId: Id)

  datatype AuditEvent =
    | ApprovalResolved(project: Id, decision: Id, resolution: ApprovalStatus, at: Instant, actor: string)
    | ApprovalLapsed(project: Id, decision: Id, at: Instant)
    | GrantIssued(project: Id, decision: Id, grantId: Id, issuedAt: Instant, expiresAt: Instant)
    | GrantConsumed(project: Id, decision: Id, at: Instant, actor: string)
    | GrantLapsed(project: Id, decision: Id, at: Instant)
    | OtherChange(project: Id)

  datatype Event =
    | FromAudit(event: AuditEvent)
    | AuthorizationCreated(projectId: Id, decisionId: Id)
    | ApprovalRequested(projectId: Id, decisionId: Id)

  /** grants is keyed by its UNIQUE decision_id column. */
  datatype Database = Database(projects: set<Id>, ledger: L.Tables, approvals: map<Id, Approval>,
                               grants: map<Id, Grant>, idempotency: map<(Id, string), IdempotencyRecord>,
                               audit: seq<AuditEvent>, outbox: seq<Event>)

  const EXPIRATION_ACTOR := "decaustrum-expiration"

  // ---------------------------------------------------------------- reads

  function GetDecision(db: Database, d: Id, p: Id): Option<Authorization> {
    if d in db.ledger.decisions && db.ledger.decisions[d].projectId == p
    then L.ReadDecision(db.ledger, d) else None
  }

  predicate InProject(db: Database, d: Id, p: Id) {
    d in db.ledger.decisions && db.ledger.decisions[d].projectId == p
  }

  function GetApproval(db: Database, d: Id, p: Id): Option<Approval> {
    if d in db.approvals && InProject(db, d, p) then Some(db.approvals[d]) else None
  }

  function GetGrant(db: Database, d: Id, p: Id): Option<Grant> {
    if d in db.grants && db.grants[d].payload.projectId == p then Some(db.grants[d]) else None
  }

  predicate DueNow(approval: Approval, at: Instant) {
    approval.status == Pending && approval.expiresAt.Some? && approval.expiresAt.value <= at
  }

  /** The rows the sweep selects, ORDER BY expires_at, decision_id. */
  function DueApprovals(db: Database, p: Id, at: Instant): (due: seq<Id>)
    ensures forall d :: d in due <==> d in db.approvals && InProject(db, d, p) && DueNow(db.approvals[d], at)
  {
    var ids := set d | d in db.approvals && InProject(db, d, p) && DueNow(db.approvals[d], at);
    SortBy(ids, map d | d in ids :: db.approvals[d].expiresAt.value)
  }

  // ---------------------------------------------------------------- transactions

  /** _record_administrative_change: the audit event and its outbox event, together. */
  function Record(db: Database, event: AuditEvent): Database {
    db.(audit := db.audit + [event], outbox := db.outbox + [FromAudit(event)])
  }

  /** The CHECKs of approval_requests. */
  predicate ApprovalChecks(approval: Approval) {
    && (approval.status == Pending <==> approval.resolvedAt.None?)
    && (approval.status == Pending <==> approval.resolvedBy.None?)
    && (approval.expiresAt.Some? ==> approval.expiresAt.value > approval.requestedAt)
  }

  /** save_authorization_with_approval; None is the IntegrityError. */
  function SaveAuthorization(db: Database, authorization: Authorization, approval: Option<Approval>,
                             idempotency: Option<(string, Fingerprint)>): Option<Database>
  {
    var d, p := authorization.decisionId, authorization.projectId;
    match W.Append(db.ledger, authorization)
    case None => None
    case Some(ledger) =>
      if approval.Some? && (d in db.approvals || !ApprovalChecks(approval.value)) then None
      else if idempotency.Some? &&
              ((p, idempotency.value.0) in db.idempotency
               || exists k :: k in db.idempotency && db.idempotency[k].decisionId == d) then None
      else
        var events := if p !in db.projects then []
                      else if approval.None? then [AuthorizationCreated(p, d)]
                      else [AuthorizationCreated(p, d), ApprovalRequested(p, d)];
        Some(db.(ledger := ledger,
                 approvals := if approval.Some? then db.approvals[d := approval.value] else db.approvals,
                 idempotency := if idempotency.None? then db.idempotency
                                else db.idempotency[(p, idempotency.value.0) :=
                                                      IdempotencyRecord(idempotency.value.1, d)],
                 outbox := db.outbox + events))
  }

  /** The write half of expire_due_approvals, over rows selected earlier. */
  function ExpireDue(db: Database, p: Id, at: Instant, due: seq<Id>): Database
    decreases |due|
  {
    if due == [] then db
    else
      var n := |due| - 1;
      ExpireOne(ExpireDue(db, p, at, due[..n]), p, at, due[n])
  }

  function ExpireOne(db: Database, p: Id, at: Instant, d: Id): Database {
    if d in db.approvals && DueNow(db.approvals[d], at)
    then Record(db.(approvals := db.approvals[d := Lapse(db.approvals[d], at)]), ApprovalLapsed(p, d, at))
    else db
  }

  function Lapse(approval: Approval, at: Instant): Approval {
    approval.(status := Expired, resolvedAt := Some(at), resolvedBy := Some(EXPIRATION_ACTOR))
  }

  datatype ResolveError = NotFound | TooLate | AlreadyResolved(status: ApprovalStatus) | Refused

  /** resolve_with_connection. Refused is what the approval trigger or the row's own
      validation raises. */
  function Resolve(db: Database, d: Id, p: Id, status: ApprovalStatus, actor: string, at: Instant)
    : Result<Database, ResolveError>
  {
    match GetApproval(db, d, p)
    case None => Err(NotFound)
    case Some(current) =>
      if current.status == Pending && (current.expiresAt.None? || current.expiresAt.value > at) then
        if status == Approved && !(d in db.grants && db.grants[d].status == Active) then Err(Refused)
        else if at < current.requestedAt then Err(Refused)
        else Ok(db.(approvals := db.approvals[d := current.(status := status, resolvedAt := Some(at),
                                                            resolvedBy := Some(actor))]))
      else if current.status == Pending then Err(TooLate)
      else Err(AlreadyResolved(current.status))
  }

  /** The write half of resolve_approval. */
  function Reject(db: Database, d: Id, p: Id, actor: string, at: Instant): Result<Database, ResolveError> {
    match Resolve(db, d, p, Rejected, actor, at)
    case Err(e) => Err(e)
    case Ok(resolved) => Ok(Record(resolved, ApprovalResolved(p, d, Rejected, at, actor)))
  }

  /** INSERT INTO execution_grants under its keys, checks and scope trigger. */
  predicate GrantInsertable(db: Database, grant: Grant) {
    var payload := grant.payload;
    var approval := GetApproval(db, payload.decisionId, payload.projectId);
    var decision := GetDecision(db, payload.decisionId, payload.projectId);
    && payload.decisionId !in db.grants
    && (forall e :: e in db.grants ==> db.grants[e].payload.grantId != payload.grantId
                                       && db.grants[e].tokenHash != grant.tokenHash)
    && payload.issuedAt < payload.expiresAt
    && grant.status == Active && grant.consumedAt.None? && grant.consumedBy.None?
    && decision.Some? && decision.value.body.outcome == RequireApproval
    && approval.Some? && approval.value.status == Pending
    && approval.value.requestedAt <= payload.issuedAt
    && (approval.value.expiresAt.Some? ==> payload.issuedAt < approval.value.expiresAt.value)
  }

  datatype ApproveError = IntegrityConflict | ResolveFailed(reason: ResolveError)

  /** The write half of approve_approval_with_grant. */
  function Approve(db: Database, grant: Grant, actor: string, at: Instant): Result<Database, ApproveError> {
    var d, p := grant.payload.decisionId, grant.payload.projectId;
    if !GrantInsertable(db, grant) then Err(IntegrityConflict)
    else
      match Resolve(db.(grants := db.grants[d := grant]), d, p, Approved, actor, at)
      case Err(e) => Err(ResolveFailed(e))
      case Ok(resolved) =>
        Ok(Record(Record(resolved, ApprovalResolved(p, d, Approved, at, actor)),
                  GrantIssued(p, d, grant.payload.grantId, grant.payload.issuedAt, grant.payload.expiresAt)))
  }

  /** consume_with_connection's guarded UPDATE and its audit; None when no row matched. */
  function Consume(db: Database, payload: Payload, tokenHash: TokenHash, actor: string, at: Instant): Option<Database> {
    var d := payload.decisionId;
    if d in db.grants && db.grants[d].payload.grantId == payload.grantId
       && db.grants[d].payload.projectId == payload.projectId && db.grants[d].tokenHash == tokenHash
       && db.grants[d].status == Active && db.grants[d].payload.expiresAt > at
    then Some(Record(db.(grants := db.grants[d := db.grants[d].(status := Consumed, consumedAt := Some(at),
                                                                consumedBy := Some(actor))]),
                     GrantConsumed(payload.projectId, d, at, actor)))
    else None
  }

  /** expire_with_connection's guarded UPDATE and its audit; None when no row matched. */
  function LapseGrant(db: Database, payload: Payload, at: Instant): Option<Database> {
    var d := payload.decisionId;
    if d in db.grants && db.grants[d].payload.grantId == payload.grantId
       && db.grants[d].payload.projectId == payload.projectId
       && db.grants[d].status == Active && db.grants[d].payload.expiresAt <= at
    then Some(Record(db.(grants := db.grants[d := db.grants[d].(status := Lapsed)]),
                     GrantLapsed(payload.projectId, d, at)))
    else None
  }
}
