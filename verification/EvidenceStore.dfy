/** app/evidence_store.py: the store, whose methods change several tables one after the
    other inside a transaction and leave no trace when they raise. */
module EvidenceStore {
  import opened Ordering
  import opened Integrity
  import opened Store
  import opened Protocol
  import L = Ledger
  import W = LedgerWrites

  datatype StoreError =
    | IntegrityError | ValidationError
    | ApprovalNotFoundError | ApprovalExpiredError | ApprovalAlreadyResolvedError(status: ApprovalStatus)
    | ScopeError | MissingGrantError | InvalidAuthorizationError
    | InvalidGrantError | MismatchError | AlreadyConsumedError | GrantExpiredError
    | ExpirationFailedError | AtomicUpdateError

  function StoreErrorOf(reason: ResolveError): StoreError {
    match reason
    case NotFound => ApprovalNotFoundError
    case TooLate => ApprovalExpiredError
    case AlreadyResolved(status) => ApprovalAlreadyResolvedError(status)
    case Refused => ValidationError
  }

  // ---------------------------------------------------------------- what the callers make of it

  /** What other callers commit at one point of a method. */
  type Meanwhile = Database -> Database

  /** What they commit at each of its points, between one statement and the next. */
  type Others = nat -> Meanwhile

  ghost predicate KeepsProjects(others: Others) {
    forall i: nat, db :: others(i)(db).projects == db.projects
  }

  /** The sweep: its UPDATEs run on the rows it selected before others committed. */
  function AfterSweep(db: Database, meanwhile: Meanwhile, p: Id, at: Instant): Database {
    ExpireDue(meanwhile(db), p, at, DueApprovals(db, p, at))
  }

  /** Where approve_approval_request stands after the store has answered. */
  function AfterApproval(r: Result<(Approval, Grant), StoreError>, now: Instant): Pc {
    match r
    case Ok((approval, grant)) => Regenerate(approval, grant)
    case Err(IntegrityError) => SweepSelect(now, ApproveReread)
    case Err(ApprovalNotFoundError) => Done(ApprovalNotFound)
    case Err(ApprovalExpiredError) => Done(ApprovalExpired)
    case Err(ApprovalAlreadyResolvedError(status)) => Done(ApprovalResolvedAs(status))
    case Err(MissingGrantError) => Done(Crash(ApprovedWithoutGrant))
    case Err(InvalidAuthorizationError) => Done(Crash(InvalidAuthorization))
    case Err(_) => Done(ValidationFailed)
  }

  /** The protocol's steps from its check to its write, with others committing before each. */
  function ApproveSteps(s: Settings, db: Database, others: Others, p: Id, input: Input, grant: Grant, choice: Choice): Next
    requires input.ApproveInput?
  {
    var checked := StepApprove(s, others(1)(db), p, input, ApproveCheck(grant), choice);
    if checked.pc.Done? then checked
    else
      var verified := StepApprove(s, others(2)(checked.db), p, input, checked.pc, choice);
      if !verified.pc.ApproveWrite? then verified
      else StepApprove(s, others(3)(verified.db), p, input, verified.pc, choice)
  }

  function AfterRejection(r: Result<Approval, StoreError>): Pc {
    match r
    case Ok(approval) => Done(RejectedAs(approval))
    case Err(ApprovalNotFoundError) => Done(ApprovalNotFound)
    case Err(ApprovalExpiredError) => Done(ApprovalExpired)
    case Err(ApprovalAlreadyResolvedError(status)) => Done(ApprovalResolvedAs(status))
    case Err(_) => Done(ValidationFailed)
  }

  function RejectSteps(db: Database, others: Others, p: Id, input: Input): Next
    requires input.RejectInput?
  {
    var read := StepReject(others(1)(db), p, input, RejectRead);
    if read.pc.Done? then read else StepReject(others(2)(read.db), p, input, read.pc)
  }

  function AfterConsumption(r: Result<Grant, StoreError>): Pc {
    match r
    case Ok(grant) => Done(ConsumedAs(grant))
    case Err(MismatchError) => Done(GrantMismatch)
    case Err(AlreadyConsumedError) => Done(GrantAlreadyConsumed)
    case Err(GrantExpiredError) => Done(GrantExpired)
    case Err(ExpirationFailedError) => Done(Crash(LapseFailed))
    case Err(AtomicUpdateError) => Done(Crash(AtomicUpdateFailed))
    case Err(_) => Done(InvalidGrant)
  }

  function ConsumeSteps(db: Database, meanwhile: Meanwhile, p: Id, input: Input): Next
    requires input.ConsumeInput? && input.token.Some?
  {
    var read := StepConsume(db, p, input, ConsumeRead);
    if read.pc.Done? then read else StepConsume(meanwhile(db), p, input, read.pc)
  }

  function Lapses(p: Id, at: Instant, ids: seq<Id>): seq<AuditEvent> {
    seq(|ids|, i requires 0 <= i < |ids| => ApprovalLapsed(p, ids[i], at))
  }

  function Enqueued(events: seq<AuditEvent>): seq<Event> {
    seq(|events|, i requires 0 <= i < |events| => FromAudit(events[i]))
  }

  lemma LapsesOneMore(p: Id, at: Instant, ids: seq<Id>, d: Id)
    ensures Lapses(p, at, ids + [d]) == Lapses(p, at, ids) + [ApprovalLapsed(p, d, at)]
    ensures Enqueued(Lapses(p, at, ids + [d])) == Enqueued(Lapses(p, at, ids)) + [FromAudit(ApprovalLapsed(p, d, at))]
  {
  }

  /** The database once these approvals have been expired and recorded. */
  function AfterLapses(db: Database, approvals: map<Id, Approval>, p: Id, at: Instant, expired: seq<Id>): Database {
    db.(approvals := approvals, audit := db.audit + Lapses(p, at, expired),
        outbox := db.outbox + Enqueued(Lapses(p, at, expired)))
  }

  lemma NothingLapsed(db: Database, p: Id, at: Instant)
    ensures Lapses(p, at, []) == [] && Enqueued(Lapses(p, at, [])) == []
    ensures ExpireDue(db, p, at, []) == AfterLapses(db, db.approvals, p, at, [])
  {
  }

  lemma LapseOneMore(db: Database, approvals: map<Id, Approval>, p: Id, at: Instant, rows: seq<Id>, i: nat, expired: seq<Id>)
    requires i < |rows| && ExpireDue(db, p, at, rows[..i]) == AfterLapses(db, approvals, p, at, expired)
    ensures ExpireDue(db, p, at, rows[..i + 1])
            == if rows[i] in approvals && DueNow(approvals[rows[i]], at)
               then AfterLapses(db, approvals[rows[i] := Lapse(approvals[rows[i]], at)], p, at, expired + [rows[i]])
               else AfterLapses(db, approvals, p, at, expired)
  {
    hide Lapses, Enqueued;
    assert rows[..i + 1][..i] == rows[..i];
    LapsesOneMore(p, at, expired, rows[i]);
  }

  /** The protocol's read changes nothing, and its two writes are these outcomes. */
  lemma ConsumeStepsAre(db: Database, p: Id, input: Input)
    requires input.ConsumeInput? && input.token.Some?
    ensures StepConsume(db, p, input, ConsumeRead).db == db
    ensures StepConsume(db, p, input, ConsumeLapse)
            == match LapseGrant(db, input.token.value, input.at)
               case Some(u) => Next(u, AfterConsumption(Err(GrantExpiredError)))
               case None => Next(db, AfterConsumption(Err(ExpirationFailedError)))
    ensures StepConsume(db, p, input, ConsumeWrite)
            == WriteOutcome(db, p, input.token.value, HashOfToken(input.token.value), input.actor, input.at)
  {
    hide LapseGrant;
  }

  lemma Unfinished()
    ensures forall r :: AfterConsumption(r).Done?
  {
  }

  function WriteOutcome(db: Database, p: Id, payload: Payload, tokenHash: TokenHash, actor: string, at: Instant): Next {
    match Consume(db, payload, tokenHash, actor, at)
    case Some(u) =>
      if payload.decisionId in u.grants then Next(u, AfterConsumption(Ok(u.grants[payload.decisionId])))
      else Next(u, AfterConsumption(Err(InvalidGrantError)))
    case None =>
      match GetGrant(db, payload.decisionId, p)
      case None => Next(db, AfterConsumption(Err(InvalidGrantError)))
      case Some(latest) =>
        Next(db, AfterConsumption(Err(match latest.status
                                      case Consumed => AlreadyConsumedError
                                      case Lapsed => GrantExpiredError
                                      case Active => AtomicUpdateError)))
  }

  /** The protocol's reads change nothing, and its write is Approve's outcome. */
  lemma ApproveStepsAre(s: Settings, db: Database, p: Id, input: Input, grant: Grant, choice: Choice)
    requires input.ApproveInput?
    ensures StepApprove(s, db, p, input, ApproveCheck(grant), choice)
            == Next(db, match GetApproval(db, input.decisionId, p)
                        case None => Done(ApprovalNotFound)
                        case Some(previous) =>
                          if previous.status == Approved then ApproveStored(previous)
                          else if previous.status != Pending then Done(FailedApproval(previous.status))
                          else ApproveVerify(grant))
    ensures forall previous ::
              StepApprove(s, db, p, input, ApproveStored(previous), choice)
              == Next(db, AfterApproval(match GetGrant(db, input.decisionId, p)
                                        case None => Err(MissingGrantError)
                                        case Some(existing) => Ok((previous, existing)), choice.now))
    ensures StepApprove(s, db, p, input, ApproveVerify(grant), choice)
            == Next(db, match GetDecision(db, input.decisionId, p)
                        case None => Done(Crash(InvalidAuthorization))
                        case Some(authorization) =>
                          if authorization.body.outcome != RequireApproval then Done(Crash(InvalidAuthorization))
                          else ApproveWrite(grant))
    ensures grant.payload.decisionId == input.decisionId ==>
              StepApprove(s, db, p, input, ApproveWrite(grant), choice)
              == match Approve(db, grant, input.actor, input.at)
                 case Ok(u) => if input.decisionId in u.approvals
                               then Next(u, AfterApproval(Ok((u.approvals[input.decisionId], grant)), choice.now))
                               else Next(u, Done(ApprovalNotFound))
                 case Err(IntegrityConflict) => Next(db, AfterApproval(Err(IntegrityError), choice.now))
                 case Err(ResolveFailed(reason)) => Next(db, AfterApproval(Err(StoreErrorOf(reason)), choice.now))
  {
    hide Approve, GetApproval, GetGrant, GetDecision;
  }

  lemma NotYetWriting(previous: Approval, now: Instant)
    ensures forall grant :: !AfterApproval(Ok((previous, grant)), now).ApproveWrite?
  {
  }

  lemma SweepKeepsProjects(db: Database, others: Others, p: Id, at: Instant)
    requires KeepsProjects(others)
    ensures AfterSweep(db, others(0), p, at).projects == db.projects
  {
    RowsKeepProjects(others(0)(db), p, at, DueApprovals(db, p, at));
  }

  lemma {:induction false} RowsKeepProjects(db: Database, p: Id, at: Instant, rows: seq<Id>)
    ensures ExpireDue(db, p, at, rows).projects == db.projects
    decreases |rows|
  {
    if rows != [] {
      RowsKeepProjects(db, p, at, rows[..|rows| - 1]);
    }
  }

  // ---------------------------------------------------------------- the store

  class EvidenceStore {
    var projects: set<Id>
    var ledger: L.Tables
    var approvals: map<Id, Approval>
    var grants: map<Id, Grant>
    var idempotency: map<(Id, string), IdempotencyRecord>
    var audit: seq<AuditEvent>
    var outbox: seq<Event>

    constructor (projects: set<Id>)
      ensures View() == Database(projects, L.Tables(map[], map[]), map[], map[], map[], [], [])
    {
      this.projects := projects;
      ledger, approvals, grants := L.Tables(map[], map[]), map[], map[];
      idempotency, audit, outbox := map[], [], [];
    }

    function View(): Database
      reads this
    {
      Database(projects, ledger, approvals, grants, idempotency, audit, outbox)
    }

    method Rollback(db: Database)
      modifies this
      ensures View() == db
    {
      projects, ledger, approvals, grants := db.projects, db.ledger, db.approvals, db.grants;
      idempotency, audit, outbox := db.idempotency, db.audit, db.outbox;
    }

    method OthersCommit(meanwhile: Meanwhile)
      modifies this
      ensures View() == meanwhile(old(View()))
    {
      Rollback(meanwhile(View()));
    }

    method EnqueueWebhookEvent(event: Event, p: Id)
      modifies this`outbox
      ensures outbox == if p in projects then old(outbox) + [event] else old(outbox)
    {
      if p !in projects {
        return;
      }
      outbox := outbox + [event];
    }

    method RecordAdministrativeChange(event: AuditEvent)
      requires event.project in projects
      modifies this`audit, this`outbox
      ensures View() == Record(old(View()), event)
    {
      audit := audit + [event];
      EnqueueWebhookEvent(FromAudit(event), event.project);
    }

    // -------------------------------------------------------------- authorization

    method InsertDecision(authorization: Authorization) returns (ok: bool)
      modifies this`ledger
      ensures ok == (authorization.decisionId !in old(ledger).decisions)
      ensures ledger == if ok then old(ledger).(decisions := old(ledger).decisions[authorization.decisionId :=
                                     L.DecisionRow(authorization.projectId, Some(authorization.body))])
                        else old(ledger)
    {
      ok := authorization.decisionId !in ledger.decisions;
      if ok {
        ledger := ledger.(decisions := ledger.decisions[authorization.decisionId :=
                                         L.DecisionRow(authorization.projectId, Some(authorization.body))]);
      }
    }

    method InsertApproval(d: Id, approval: Approval) returns (ok: bool)
      modifies this`approvals
      ensures ok == (d !in old(approvals) && ApprovalChecks(approval))
      ensures approvals == if ok then old(approvals)[d := approval] else old(approvals)
    {
      ok := d !in approvals && ApprovalChecks(approval);
      if ok {
        approvals := approvals[d := approval];
      }
    }

    method InsertIdempotency(p: Id, key: string, record: IdempotencyRecord) returns (ok: bool)
      modifies this`idempotency
      ensures ok == ((p, key) !in old(idempotency)
                     && forall k :: k in old(idempotency) ==> old(idempotency)[k].decisionId != record.decisionId)
      ensures idempotency == if ok then old(idempotency)[(p, key) := record] else old(idempotency)
    {
      ok := (p, key) !in idempotency && forall k :: k in idempotency ==> idempotency[k].decisionId != record.decisionId;
      if ok {
        idempotency := idempotency[(p, key) := record];
      }
    }

    /** The decision row, then its proof on top of the project's chain. */
    method InsertWithProof(authorization: Authorization) returns (ok: bool)
      modifies this`ledger
      ensures ok == W.Append(old(ledger), authorization).Some?
      ensures ok ==> ledger == W.Append(old(ledger), authorization).value
    {
      hide W.InsertProof, W.NextProof;
      ok := InsertDecision(authorization);
      if ok {
        var appended := W.InsertProof(ledger, W.NextProof(ledger, authorization));
        ok := appended.Some?;
        if ok {
          ledger := appended.value;
        }
      }
    }

    /** All rows of an authorization, or none of them. */
    method SaveAuthorizationWithApproval(authorization: Authorization, approval: Option<Approval>,
                                         idempotencyRecord: Option<(string, Fingerprint)>) returns (saved: bool)
      modifies this
      ensures saved == SaveAuthorization(old(View()), authorization, approval, idempotencyRecord).Some?
      ensures View() == if saved then SaveAuthorization(old(View()), authorization, approval, idempotencyRecord).value
                        else old(View())
    {
      hide W.Append, ApprovalChecks;
      var start := View();
      var d, p := authorization.decisionId, authorization.projectId;
      saved := InsertWithProof(authorization);
      if saved && approval.Some? {
        saved := InsertApproval(d, approval.value);
      }
      if saved && idempotencyRecord.Some? {
        saved := InsertIdempotency(p, idempotencyRecord.value.0, IdempotencyRecord(idempotencyRecord.value.1, d));
      }
      if !saved {
        Rollback(start);
        return;
      }
      EnqueueWebhookEvent(AuthorizationCreated(p, d), p);
      if approval.Some? {
        EnqueueWebhookEvent(ApprovalRequested(p, d), p);
      }
    }

    // -------------------------------------------------------------- approvals

    /** The guarded updates, in the order of the SELECT. */
    method UpdateDue(p: Id, at: Instant, rows: seq<Id>) returns (expired: seq<Id>)
      modifies this`approvals
      ensures ExpireDue(old(View()), p, at, rows) == AfterLapses(old(View()), approvals, p, at, expired)
    {
      hide ExpireDue, AfterLapses;
      ghost var start := View();
      expired := [];
      NothingLapsed(start, p, at);
      assert rows[..0] == [];
      for i := 0 to |rows|
        invariant ExpireDue(start, p, at, rows[..i]) == AfterLapses(start, approvals, p, at, expired)
      {
        LapseOneMore(start, approvals, p, at, rows, i, expired);
        var d := rows[i];
        if d in approvals && DueNow(approvals[d], at) {
          approvals := approvals[d := Lapse(approvals[d], at)];
          expired := expired + [d];
        }
      }
      assert rows[..|rows|] == rows;
    }

    /** All guarded updates, then one audit event for each row that changed. */
    method ExpireRows(p: Id, at: Instant, rows: seq<Id>) returns (expired: seq<Id>)
      requires p in projects
      modifies this`approvals, this`audit, this`outbox
      ensures View() == ExpireDue(old(View()), p, at, rows)
      ensures audit == old(audit) + Lapses(p, at, expired)
    {
      hide Lapses, Enqueued, ExpireDue;
      ghost var start := View();
      expired := UpdateDue(p, at, rows);
      ghost var updated := approvals;
      NothingLapsed(start, p, at);
      for i := 0 to |expired|
        invariant approvals == updated
        invariant audit == start.audit + Lapses(p, at, expired[..i])
        invariant outbox == start.outbox + Enqueued(Lapses(p, at, expired[..i]))
      {
        assert expired[..i + 1] == expired[..i] + [expired[i]];
        LapsesOneMore(p, at, expired[..i], expired[i]);
        RecordAdministrativeChange(ApprovalLapsed(p, expired[i], at));
      }
      assert expired[..|expired|] == expired;
    }

    /** The sweep, whatever commits between its SELECT and its first UPDATE: it expires and
        audits exactly the selected approvals that are still due. */
    method ExpireDueApprovals(p: Id, at: Instant, others: Others) returns (expired: seq<Id>)
      requires p in projects && KeepsProjects(others)
      modifies this
      ensures View() == AfterSweep(old(View()), others(0), p, at)
      ensures audit == others(0)(old(View())).audit + Lapses(p, at, expired)
    {
      hide Lapses, ExpireDue, DueApprovals;
      var rows := DueApprovals(View(), p, at);
      OthersCommit(others(0));
      expired := ExpireRows(p, at, rows);
    }

    /** The guarded UPDATE of resolve_with_connection, its trigger, and the row read back. */
    method ResolveWithConnection(d: Id, p: Id, status: ApprovalStatus, actor: string, at: Instant)
      returns (r: Result<Approval, StoreError>)
      modifies this`approvals
      ensures match Resolve(old(View()), d, p, status, actor, at)
              case Ok(u) => View() == u && d in approvals && r == Ok(approvals[d])
              case Err(reason) => View() == old(View()) && r == Err(StoreErrorOf(reason))
    {
      var current := GetApproval(View(), d, p);
      if current.None? {
        return Err(ApprovalNotFoundError);
      }
      var approval := current.value;
      if approval.status == Pending && (approval.expiresAt.None? || approval.expiresAt.value > at) {
        if status == Approved && !(d in grants && grants[d].status == Active) {
          return Err(ValidationError);
        }
        if at < approval.requestedAt {
          return Err(ValidationError);
        }
        approvals := approvals[d := approval.(status := status, resolvedAt := Some(at), resolvedBy := Some(actor))];
        return Ok(approvals[d]);
      }
      return Err(if approval.status == Pending then ApprovalExpiredError else ApprovalAlreadyResolvedError(approval.status));
    }

    /** The method is the protocol's sweep, read and write, whatever commits before each. */
    method ResolveApproval(d: Id, p: Id, actor: string, at: Instant, others: Others)
      returns (r: Result<Approval, StoreError>)
      requires p in projects && KeepsProjects(others)
      modifies this
      ensures Next(View(), AfterRejection(r))
              == RejectSteps(AfterSweep(old(View()), others(0), p, at), others, p, RejectInput(d, actor, at))
    {
      hide AfterSweep, Resolve;
      var _ := ExpireDueApprovals(p, at, others);
      SweepKeepsProjects(old(View()), others, p, at);
      OthersCommit(others(1));
      var previous := GetApproval(View(), d, p);
      if previous.Some? && previous.value.status == Expired {
        return Err(ApprovalExpiredError);
      }
      OthersCommit(others(2));
      r := ResolveWithConnection(d, p, Rejected, actor, at);
      if r.Ok? {
        RecordAdministrativeChange(ApprovalResolved(p, d, Rejected, at, actor));
      }
    }

    // -------------------------------------------------------------- approval with grant

    method InsertGrant(grant: Grant) returns (ok: bool)
      modifies this`grants
      ensures ok == GrantInsertable(old(View()), grant)
      ensures grants == if ok then old(grants)[grant.payload.decisionId := grant] else old(grants)
    {
      ok := GrantInsertable(View(), grant);
      if ok {
        grants := grants[grant.payload.decisionId := grant];
      }
    }

    /** The writes of approve_approval_with_grant: grant, approval, two audit events. */
    method GrantAndResolve(grant: Grant, actor: string, at: Instant) returns (r: Result<(Approval, Grant), StoreError>)
      requires grant.payload.projectId in projects
      modifies this
      ensures match Approve(old(View()), grant, actor, at)
              case Ok(u) => View() == u && grant.payload.decisionId in approvals
                            && r == Ok((approvals[grant.payload.decisionId], grant))
              case Err(IntegrityConflict) => View() == old(View()) && r == Err(IntegrityError)
              case Err(ResolveFailed(reason)) => View() == old(View()) && r == Err(StoreErrorOf(reason))
    {
      hide Resolve, GrantInsertable;
      var start := View();
      var d, p := grant.payload.decisionId, grant.payload.projectId;
      var inserted := InsertGrant(grant);
      if !inserted {
        return Err(IntegrityError);
      }
      var resolved := ResolveWithConnection(d, p, Approved, actor, at);
      if resolved.Err? {
        Rollback(start);
        return Err(resolved.error);
      }
      RecordAdministrativeChange(ApprovalResolved(p, d, Approved, at, actor));
      RecordAdministrativeChange(GrantIssued(p, d, grant.payload.grantId, grant.payload.issuedAt, grant.payload.expiresAt));
      return Ok((resolved.value, grant));
    }

    /** The method is the protocol's sweep, checks and write, whatever commits before each. */
    method ApproveApprovalWithGrant(d: Id, p: Id, actor: string, at: Instant, grant: Grant, others: Others,
                                    ghost s: Settings, ghost choice: Choice)
      returns (r: Result<(Approval, Grant), StoreError>)
      requires p in projects && KeepsProjects(others)
      modifies this
      ensures r == Err(ScopeError) <==> (grant.payload.decisionId != d || grant.payload.projectId != p)
      ensures r == Err(ScopeError) ==> View() == AfterSweep(old(View()), others(0), p, at)
      ensures r != Err(ScopeError) ==>
                Next(View(), AfterApproval(r, choice.now))
                == ApproveSteps(s, AfterSweep(old(View()), others(0), p, at), others, p, ApproveInput(d, actor, at), grant, choice)
    {
      hide AfterSweep, ApproveSteps, AfterApproval;
      var _ := ExpireDueApprovals(p, at, others);
      SweepKeepsProjects(old(View()), others, p, at);
      if grant.payload.decisionId != d || grant.payload.projectId != p {
        return Err(ScopeError);
      }
      r := CheckAndApprove(d, p, actor, at, grant, others, s, choice);
    }

    /** What approve_approval_with_grant does in its own transaction, after the sweep. */
    method CheckAndApprove(d: Id, p: Id, actor: string, at: Instant, grant: Grant, others: Others,
                           ghost s: Settings, ghost choice: Choice)
      returns (r: Result<(Approval, Grant), StoreError>)
      requires p in projects && KeepsProjects(others)
      requires grant.payload.decisionId == d && grant.payload.projectId == p
      modifies this
      ensures r != Err(ScopeError)
      ensures Next(View(), AfterApproval(r, choice.now))
              == ApproveSteps(s, old(View()), others, p, ApproveInput(d, actor, at), grant, choice)
    {
      hide Approve, StepApprove, GetApproval, GetGrant, GetDecision, Regenerate;
      ghost var input := ApproveInput(d, actor, at);
      OthersCommit(others(1));
      ApproveStepsAre(s, View(), p, input, grant, choice);
      var previous := GetApproval(View(), d, p);
      if previous.None? {
        return Err(ApprovalNotFoundError);
      }
      if previous.value.status == Expired {
        return Err(ApprovalExpiredError);
      }
      if previous.value.status == Approved {
        OthersCommit(others(2));
        ApproveStepsAre(s, View(), p, input, grant, choice);
        NotYetWriting(previous.value, choice.now);
        var existing := GetGrant(View(), d, p);
        if existing.None? {
          return Err(MissingGrantError);
        }
        return Ok((previous.value, existing.value));
      }
      if previous.value.status != Pending {
        return Err(ApprovalAlreadyResolvedError(previous.value.status));
      }
      OthersCommit(others(2));
      ApproveStepsAre(s, View(), p, input, grant, choice);
      var authorization := GetDecision(View(), d, p);
      if authorization.None? || authorization.value.body.outcome != RequireApproval {
        return Err(InvalidAuthorizationError);
      }
      OthersCommit(others(3));
      ApproveStepsAre(s, View(), p, input, grant, choice);
      r := GrantAndResolve(grant, actor, at);
    }

    // -------------------------------------------------------------- consumption

    method ConsumeWithConnection(payload: Payload, tokenHash: TokenHash, actor: string, at: Instant)
      returns (ok: bool)
      modifies this`grants
      ensures var d := payload.decisionId;
              if ok then d in old(grants) && grants == old(grants)[d := old(grants)[d].(status := Consumed,
                           consumedAt := Some(at), consumedBy := Some(actor))]
              else grants == old(grants)
      ensures ok == Consume(old(View()), payload, tokenHash, actor, at).Some?
    {
      var d := payload.decisionId;
      ok := d in grants && grants[d].payload.grantId == payload.grantId && grants[d].payload.projectId == payload.projectId
            && grants[d].tokenHash == tokenHash && grants[d].status == Active && grants[d].payload.expiresAt > at;
      if ok {
        grants := grants[d := grants[d].(status := Consumed, consumedAt := Some(at), consumedBy := Some(actor))];
      }
    }

    method ExpireWithConnection(payload: Payload, at: Instant) returns (ok: bool)
      modifies this`grants
      ensures var d := payload.decisionId;
              if ok then d in old(grants) && grants == old(grants)[d := old(grants)[d].(status := Lapsed)]
              else grants == old(grants)
      ensures ok == LapseGrant(old(View()), payload, at).Some?
    {
      var d := payload.decisionId;
      ok := d in grants && grants[d].payload.grantId == payload.grantId && grants[d].payload.projectId == payload.projectId
            && grants[d].status == Active && grants[d].payload.expiresAt <= at;
      if ok {
        grants := grants[d := grants[d].(status := Lapsed)];
      }
    }

    /** The checks on the row as first read; presented is the request behind the fingerprint. */
    method CheckGrant(payload: Payload, p: Id, tokenHash: TokenHash, fingerprint: Fingerprint, at: Instant, actor: string,
                      ghost presented: Request) returns (fault: Option<StoreError>)
      ensures fault.None? ==> payload.projectId == p
      ensures fault.Some? && fault.value == GrantExpiredError ==>
                payload.decisionId in grants && grants[payload.decisionId].status == Lapsed
      ensures payload.projectId == p && tokenHash == HashOfToken(payload) && fingerprint == FingerprintOf(presented) ==>
                StepConsume(View(), p, ConsumeInput(Some(payload), presented, actor, at), ConsumeRead).pc
                == if fault.Some? then AfterConsumption(Err(fault.value))
                   else if payload.expiresAt <= at then ConsumeLapse else ConsumeWrite
      ensures payload.projectId != p ==> fault == Some(InvalidGrantError)
    {
      if payload.projectId != p {
        return Some(InvalidGrantError);
      }
      var current := GetGrant(View(), payload.decisionId, p);
      if current.None? || current.value.tokenHash != tokenHash || current.value.payload != payload {
        return Some(InvalidGrantError);
      }
      if current.value.payload.fingerprint != fingerprint {
        return Some(MismatchError);
      }
      if current.value.status == Consumed {
        return Some(AlreadyConsumedError);
      }
      if current.value.status == Lapsed {
        return Some(GrantExpiredError);
      }
      return None;
    }

    /** With the token's own hash the method is the protocol's check and its write, whatever
        commits in between; an expired grant is marked and committed before the error is
        raised. */
    method ConsumeExecutionGrant(payload: Payload, p: Id, tokenHash: TokenHash, fingerprint: Fingerprint,
                                 at: Instant, actor: string, meanwhile: Meanwhile, ghost presented: Request)
      returns (r: Result<Grant, StoreError>)
      requires p in projects && forall db :: meanwhile(db).projects == db.projects
      modifies this
      ensures payload.projectId != p ==> r == Err(InvalidGrantError) && View() == old(View())
      ensures r.Ok? ==> Consume(meanwhile(old(View())), payload, tokenHash, actor, at) == Some(View())
      ensures r.Err? && r.error != GrantExpiredError ==> View() == old(View()) || View() == meanwhile(old(View()))
      ensures payload.projectId == p && tokenHash == HashOfToken(payload) && fingerprint == FingerprintOf(presented) ==>
                Next(View(), AfterConsumption(r))
                == ConsumeSteps(old(View()), meanwhile, p, ConsumeInput(Some(payload), presented, actor, at))
    {
      hide Consume, LapseGrant, StepConsume, AfterConsumption, WriteOutcome;
      var fault := CheckGrant(payload, p, tokenHash, fingerprint, at, actor, presented);
      ConsumeStepsAre(View(), p, ConsumeInput(Some(payload), presented, actor, at));
      ConsumeStepsAre(meanwhile(View()), p, ConsumeInput(Some(payload), presented, actor, at));
      Unfinished();
      if fault.Some? {
        return Err(fault.value);
      }
      OthersCommit(meanwhile);
      if payload.expiresAt <= at {
        r := ExpireAndRecord(payload, at);
      } else {
        r := ConsumeAndRecord(payload, tokenHash, actor, at);
      }
    }

    method ExpireAndRecord(payload: Payload, at: Instant) returns (r: Result<Grant, StoreError>)
      requires payload.projectId in projects
      modifies this
      ensures match LapseGrant(old(View()), payload, at)
              case Some(u) => View() == u && r == Err(GrantExpiredError)
              case None => View() == old(View()) && r == Err(ExpirationFailedError)
    {
      var lapsed := ExpireWithConnection(payload, at);
      if !lapsed {
        return Err(ExpirationFailedError);
      }
      RecordAdministrativeChange(GrantLapsed(payload.projectId, payload.decisionId, at));
      return Err(GrantExpiredError);
    }

    /** A guarded UPDATE that matches no row is explained by the row as it is now. */
    method ConsumeAndRecord(payload: Payload, tokenHash: TokenHash, actor: string, at: Instant)
      returns (r: Result<Grant, StoreError>)
      requires payload.projectId in projects
      modifies this
      ensures Next(View(), AfterConsumption(r))
              == WriteOutcome(old(View()), payload.projectId, payload, tokenHash, actor, at)
      ensures r.Ok? ==> Consume(old(View()), payload, tokenHash, actor, at) == Some(View())
      ensures r.Err? ==> View() == old(View())
    {
      var consumed := ConsumeWithConnection(payload, tokenHash, actor, at);
      if !consumed {
        var latest := GetGrant(View(), payload.decisionId, payload.projectId);
        if latest.None? {
          return Err(InvalidGrantError);
        }
        if latest.value.status == Consumed {
          return Err(AlreadyConsumedError);
        }
        if latest.value.status == Lapsed {
          return Err(GrantExpiredError);
        }
        return Err(AtomicUpdateError);
      }
      RecordAdministrativeChange(GrantConsumed(payload.projectId, payload.decisionId, at, actor));
      r := Ok(grants[payload.decisionId]);
    }
  }
}
