/** What holds of every call at every program counter, and why other calls cannot break it:
    each fact a call remembers from an earlier read is one that no transaction revokes. */
module ProtocolInvariants {
  import opened Ordering
  import opened Integrity
  import opened Store
  import opened StoreInvariants
  import opened Accounting
  import opened Protocol
  import W = LedgerWrites
  import L = Ledger

  ghost predicate DatesOk(s: Settings, db: Database) {
    && (forall d :: d in db.approvals ==> db.approvals[d].expiresAt == Some(db.approvals[d].requestedAt + s.approvalTtl))
    && (forall d :: d in db.approvals && ReadableDecision(db, d) ==> db.approvals[d].requestedAt == BodyOf(db, d).evaluatedAt)
    && (forall d :: d in db.grants ==> db.grants[d].payload.expiresAt == db.grants[d].payload.issuedAt + s.grantTtl)
  }

  ghost predicate DbOk(s: Settings, db: Database) {
    Consistent(db) && Accounted(db) && DatesOk(s, db)
  }

  // ---------------------------------------------------------------- what a call knows

  ghost predicate KeyHolds(db: Database, p: Id, input: Input, d: Id)
    requires input.AuthorizeInput? && input.key.Some?
  {
    (p, input.key.value) in db.idempotency && db.idempotency[(p, input.key.value)]
                                              == IdempotencyRecord(FingerprintOf(input.request), d)
  }

  /** An approval row read earlier: still that row, if it was already resolved. */
  ghost predicate ReadEarlier(db: Database, p: Id, d: Id, approval: Approval) {
    GetApproval(db, d, p).Some? && ApprovalStep(approval, GetApproval(db, d, p).value)
  }

  ghost predicate GrantToInsert(s: Settings, db: Database, p: Id, input: Input, grant: Grant)
    requires input.ApproveInput?
  {
    && ServiceGrant(db, grant, input.at)
    && grant.status == Active && grant.consumedAt.None? && grant.consumedBy.None?
    && grant.payload.decisionId == input.decisionId && grant.payload.projectId == p
    && grant.payload.expiresAt == grant.payload.issuedAt + s.grantTtl
    && BodyOf(db, grant.payload.decisionId).outcome == RequireApproval
  }

  /** The grant a consumer has checked: bound to its token and to the presented request. */
  ghost predicate CheckedGrant(db: Database, p: Id, input: Input)
    requires input.ConsumeInput?
  {
    && input.token.Some? && input.token.value.projectId == p
    && GetGrant(db, input.token.value.decisionId, p).Some?
    && var grant := GetGrant(db, input.token.value.decisionId, p).value;
       grant.payload == input.token.value && grant.tokenHash == HashOfToken(grant.payload)
       && grant.payload.fingerprint == FingerprintOf(input.presented)
  }

  ghost predicate AnswerOk(db: Database, p: Id, input: Input, answer: Answer) {
    match answer
    case Authorized(authorization) =>
      && input.AuthorizeInput? && GetDecision(db, authorization.decisionId, p) == Some(authorization)
      && authorization.body.request == input.request
      && (input.key.Some? ==> KeyHolds(db, p, input, authorization.decisionId))
    case KeyConflict =>
      input.AuthorizeInput? && input.key.Some? && (p, input.key.value) in db.idempotency
      && db.idempotency[(p, input.key.value)].fingerprint != FingerprintOf(input.request)
    case Granted(approval, grant) =>
      && input.ApproveInput? && GetApproval(db, input.decisionId, p) == Some(approval) && approval.status == Approved
      && GetGrant(db, input.decisionId, p).Some? && GetGrant(db, input.decisionId, p).value.payload == grant.payload
    case RejectedAs(approval) =>
      input.RejectInput? && GetApproval(db, input.decisionId, p) == Some(approval) && approval.status == Rejected
    case ConsumedAs(grant) =>
      && input.ConsumeInput? && CheckedGrant(db, p, input)
      && GetGrant(db, input.token.value.decisionId, p) == Some(grant) && grant.status == Consumed
      && grant.consumedAt == Some(input.at)
    case Crash(defect) =>
      && defect == LapseFailed && input.ConsumeInput? && CheckedGrant(db, p, input)
      && GetGrant(db, input.token.value.decisionId, p).value.status != Active
    case DatabaseError => input.AuthorizeInput?
    case ValidationFailed => input.RejectInput?
    case _ => true
  }

  /** What a call does after a sweep. */
  predicate Resumes(next: Pc) {
    next.ApproveRead? || next.RejectRead? || next.ApproveCheck? || next.ApproveReread? || next == Done(Swept)
  }

  ghost predicate PcOk(s: Settings, db: Database, p: Id, input: Input, pc: Pc) {
    match pc
    case SweepSelect(_, next) => Resumes(next) && PcOk(s, db, p, input, next)
    case SweepWrite(_, due, next) =>
      Resumes(next) && (forall d :: d in due ==> d in db.approvals && InProject(db, d, p)) && PcOk(s, db, p, input, next)
    case AuthorizeLookup(_) => input.AuthorizeInput? && input.key.Some?
    case AuthorizeFetch(d) => input.AuthorizeInput? && input.key.Some? && KeyHolds(db, p, input, d)
    case AuthorizeSave => input.AuthorizeInput?
    case ApproveRead => input.ApproveInput?
    case ApproveExisting(approval) =>
      input.ApproveInput? && approval.status == Approved && ReadEarlier(db, p, input.decisionId, approval)
    case ApproveLoad => input.ApproveInput? && GetApproval(db, input.decisionId, p).Some?
    case ApproveCheck(grant) => input.ApproveInput? && GrantToInsert(s, db, p, input, grant)
    case ApproveStored(approval) =>
      input.ApproveInput? && approval.status == Approved && ReadEarlier(db, p, input.decisionId, approval)
    case ApproveVerify(grant) => input.ApproveInput? && GrantToInsert(s, db, p, input, grant)
    case ApproveWrite(grant) => input.ApproveInput? && GrantToInsert(s, db, p, input, grant)
    case ApproveReread => input.ApproveInput? && GetApproval(db, input.decisionId, p).Some?
    case ApproveRecover(reread) =>
      input.ApproveInput? && reread.Some? && ReadEarlier(db, p, input.decisionId, reread.value)
    case RejectRead => input.RejectInput?
    case RejectWrite => input.RejectInput?
    case ConsumeDecision => input.ConsumeInput? && input.token.Some? && input.token.value.projectId == p
    case ConsumeRead => input.ConsumeInput? && input.token.Some? && input.token.value.projectId == p
    case ConsumeLapse => input.ConsumeInput? && CheckedGrant(db, p, input) && input.token.value.expiresAt <= input.at
    case ConsumeWrite => input.ConsumeInput? && CheckedGrant(db, p, input) && input.token.value.expiresAt > input.at
    case Done(answer) => AnswerOk(db, p, input, answer)
  }

  // ---------------------------------------------------------------- stability

  lemma StableReads(a: Database, b: Database, p: Id, d: Id)
    requires Evolves(a, b)
    ensures GetDecision(a, d, p).Some? ==> GetDecision(b, d, p) == GetDecision(a, d, p)
    ensures InProject(a, d, p) ==> InProject(b, d, p)
    ensures GetApproval(a, d, p).Some? ==> ReadEarlier(b, p, d, GetApproval(a, d, p).value)
    ensures GetGrant(a, d, p).Some? ==> GetGrant(b, d, p).Some? && GrantStep(GetGrant(a, d, p).value, GetGrant(b, d, p).value)
  {
  }

  lemma StableAnswer(a: Database, b: Database, p: Id, input: Input, answer: Answer)
    requires Evolves(a, b) && AnswerOk(a, p, input, answer)
    ensures AnswerOk(b, p, input, answer)
  {
    match answer
    case Authorized(authorization) => StableReads(a, b, p, authorization.decisionId);
    case Granted(_, _) => StableReads(a, b, p, input.decisionId);
    case RejectedAs(_) => StableReads(a, b, p, input.decisionId);
    case ConsumedAs(_) => StableReads(a, b, p, input.token.value.decisionId);
    case Crash(_) => StableReads(a, b, p, input.token.value.decisionId);
    case _ =>
  }

  lemma StableGrantToInsert(s: Settings, a: Database, b: Database, p: Id, input: Input, grant: Grant)
    requires Evolves(a, b) && input.ApproveInput? && GrantToInsert(s, a, p, input, grant)
    ensures GrantToInsert(s, b, p, input, grant)
  {
    assert BodyOf(a, input.decisionId) == BodyOf(b, input.decisionId);
  }

  /** No transaction revokes what a call knows. */
  lemma {:induction false} StablePc(s: Settings, a: Database, b: Database, p: Id, input: Input, pc: Pc)
    requires Evolves(a, b) && PcOk(s, a, p, input, pc)
    ensures PcOk(s, b, p, input, pc)
    decreases pc
  {
    hide Evolves;
    match pc
    case SweepSelect(_, next) => StablePc(s, a, b, p, input, next);
    case SweepWrite(_, due, next) =>
      StablePc(s, a, b, p, input, next);
      forall d | d in due ensures d in b.approvals && InProject(b, d, p) {
        StableReads(a, b, p, d);
      }
    case AuthorizeFetch(d) => StableKey(a, b, p, input, d);
    case ApproveExisting(_) => StableReads(a, b, p, input.decisionId);
    case ApproveLoad => StableReads(a, b, p, input.decisionId);
    case ApproveCheck(grant) => StableGrantToInsert(s, a, b, p, input, grant);
    case ApproveStored(_) => StableReads(a, b, p, input.decisionId);
    case ApproveVerify(grant) => StableGrantToInsert(s, a, b, p, input, grant);
    case ApproveWrite(grant) => StableGrantToInsert(s, a, b, p, input, grant);
    case ApproveReread => StableReads(a, b, p, input.decisionId);
    case ApproveRecover(_) => StableReads(a, b, p, input.decisionId);
    case ConsumeLapse => StableReads(a, b, p, input.token.value.decisionId);
    case ConsumeWrite => StableReads(a, b, p, input.token.value.decisionId);
    case Done(answer) => StableAnswer(a, b, p, input, answer);
    case _ =>
  }

  lemma StableKey(a: Database, b: Database, p: Id, input: Input, d: Id)
    requires Evolves(a, b) && input.AuthorizeInput? && input.key.Some? && KeyHolds(a, p, input, d)
    ensures KeyHolds(b, p, input, d)
  {
  }

  // ---------------------------------------------------------------- steps

  lemma EvolvesRefl(db: Database)
    ensures Evolves(db, db)
  {
  }

  /** What a step must re-establish. */
  ghost predicate Kept(s: Settings, db: Database, p: Id, input: Input, next: Next) {
    DbOk(s, next.db) && Evolves(db, next.db) && PcOk(s, next.db, p, input, next.pc)
  }

  lemma ReadOnly(s: Settings, db: Database, p: Id, input: Input, next: Next)
    requires DbOk(s, db) && next.db == db && PcOk(s, db, p, input, next.pc)
    ensures Kept(s, db, p, input, next)
  {
    hide DbOk, PcOk;
    EvolvesRefl(db);
  }

  lemma SweepKeeps(s: Settings, db: Database, p: Id, at: Instant, due: seq<Id>, input: Input, next: Pc)
    requires DbOk(s, db) && PcOk(s, db, p, input, SweepWrite(at, due, next))
    ensures Kept(s, db, p, input, Next(ExpireDue(db, p, at, due), next))
  {
    hide Consistent, Accounted, Evolves;
    ExpireDueKeeps(db, p, at, due);
    ExpireDueKeepsBooks(db, p, at, due);
    ExpireDueDates(s, db, p, at, due);
    StablePc(s, db, ExpireDue(db, p, at, due), p, input, next);
  }

  lemma {:induction false} ExpireDueDates(s: Settings, db: Database, p: Id, at: Instant, due: seq<Id>)
    requires DatesOk(s, db)
    ensures DatesOk(s, ExpireDue(db, p, at, due))
    ensures ExpireDue(db, p, at, due).ledger == db.ledger && ExpireDue(db, p, at, due).grants == db.grants
    decreases |due|
  {
    if due != [] {
      ExpireDueDates(s, db, p, at, due[..|due| - 1]);
    }
  }

  lemma SelectKeeps(s: Settings, db: Database, p: Id, at: Instant, input: Input, next: Pc)
    requires DbOk(s, db) && PcOk(s, db, p, input, SweepSelect(at, next))
    ensures Kept(s, db, p, input, Next(db, SweepWrite(at, DueApprovals(db, p, at), next)))
  {
    hide DbOk;
    ReadOnly(s, db, p, input, Next(db, SweepWrite(at, DueApprovals(db, p, at), next)));
  }

  /** With an existing approval GetDecision finds the decision it belongs to. */
  lemma ApprovalHasDecision(db: Database, d: Id, p: Id)
    requires Consistent(db) && GetApproval(db, d, p).Some?
    ensures GetDecision(db, d, p).Some? && ReadableDecision(db, d)
    ensures GetDecision(db, d, p).value == Authorization(d, p, BodyOf(db, d))
    ensures BodyOf(db, d).outcome == RequireApproval
    ensures db.approvals[d].status == Approved <==> d in db.grants
    ensures d in db.grants ==> GetGrant(db, d, p) == Some(db.grants[d]) && db.grants[d].tokenHash == HashOfToken(db.grants[d].payload)
    ensures d in db.grants ==> db.grants[d].payload.decisionId == d
  {
    hide LedgerOk, IdempotencyOk, ApprovalOk;
    if d in db.grants {
      assert GrantOk(db, d);
    }
  }

  lemma ApproveStepKeeps(s: Settings, db: Database, p: Id, input: Input, pc: Pc, choice: Choice)
    requires DbOk(s, db) && input.ApproveInput? && PcOk(s, db, p, input, pc)
    requires !pc.SweepSelect? && !pc.SweepWrite? && !pc.ApproveWrite? && !pc.Done?
    ensures Kept(s, db, p, input, StepApprove(s, db, p, input, pc, choice))
  {
    hide Accounted, DatesOk, Consistent, Approve;
    var next := StepApprove(s, db, p, input, pc, choice);
    if GetApproval(db, input.decisionId, p).Some? {
      ApprovalHasDecision(db, input.decisionId, p);
    }
    assert PcOk(s, db, p, input, next.pc);
    ReadOnly(s, db, p, input, next);
  }

  lemma ApproveWriteKeeps(s: Settings, db: Database, p: Id, input: Input, grant: Grant, choice: Choice)
    requires DbOk(s, db) && input.ApproveInput? && PcOk(s, db, p, input, ApproveWrite(grant))
    ensures Kept(s, db, p, input, StepApprove(s, db, p, input, ApproveWrite(grant), choice))
  {
    hide Accounted, Consistent, Approve, Evolves, DatesOk;
    var next := StepApprove(s, db, p, input, ApproveWrite(grant), choice);
    ApproveAllOrNothing(db, grant, input.actor);
    if Approve(db, grant, input.actor, input.at).Ok? {
      ApproveKeeps(db, grant, input.actor, input.at);
      ApproveKeepsBooks(db, grant, input.actor, input.at);
      ApproveOutcome(s, db, grant, input.actor);
    } else {
      GrantTargetHasApproval(db, p, input, grant, s);
      ReadOnly(s, db, p, input, next);
    }
  }

  lemma GrantTargetHasApproval(db: Database, p: Id, input: Input, grant: Grant, s: Settings)
    requires Consistent(db) && input.ApproveInput? && GrantToInsert(s, db, p, input, grant)
    ensures GetApproval(db, input.decisionId, p).Some?
  {
    hide LedgerOk, GrantsOk, IdempotencyOk;
  }

  lemma ApproveOutcome(s: Settings, db: Database, grant: Grant, actor: string)
    requires DatesOk(s, db) && Approve(db, grant, actor, grant.payload.issuedAt).Ok?
    requires grant.payload.expiresAt == grant.payload.issuedAt + s.grantTtl
    ensures var u := Approve(db, grant, actor, grant.payload.issuedAt).value;
            && DatesOk(s, u)
            && GetApproval(u, grant.payload.decisionId, grant.payload.projectId).Some?
            && u.approvals[grant.payload.decisionId].status == Approved
            && GetGrant(u, grant.payload.decisionId, grant.payload.projectId) == Some(grant)
  {
  }

  lemma AuthorizeStepKeeps(s: Settings, db: Database, p: Id, input: Input, pc: Pc, choice: Choice)
    requires DbOk(s, db) && p in db.projects && input.AuthorizeInput? && PcOk(s, db, p, input, pc)
    requires !pc.SweepSelect? && !pc.SweepWrite? && !pc.Done?
    ensures Kept(s, db, p, input, StepAuthorize(s, db, p, input, pc, choice))
  {
    hide Accounted, Consistent, DatesOk, SaveAuthorization, Evolves;
    var next := StepAuthorize(s, db, p, input, pc, choice);
    if next.db == db && !(next.pc.Done? && next.pc.answer.Authorized? && pc.AuthorizeSave?) {
      if pc.AuthorizeFetch? {
        KeyHasDecision(db, p, input, pc.decisionId);
      }
      ReadOnly(s, db, p, input, next);
    } else {
      var authorization := next.pc.answer.authorization;
      var approval := if authorization.body.outcome == RequireApproval
                      then Some(Approval(Pending, choice.now, Some(choice.now + s.approvalTtl), None, None)) else None;
      SaveKeeps(db, authorization, approval, IdempotencyOf(input));
      SaveKeepsBooks(db, authorization, approval, IdempotencyOf(input));
      ApprovalsReadable(db);
      SaveOutcome(s, db, authorization, approval, input);
    }
  }

  lemma ApprovalsReadable(db: Database)
    requires Consistent(db)
    ensures forall d :: d in db.approvals ==> ReadableDecision(db, d)
  {
    hide LedgerOk, GrantsOk, IdempotencyOk, ApprovalOk;
  }

  lemma KeyHasDecision(db: Database, p: Id, input: Input, d: Id)
    requires Consistent(db) && input.AuthorizeInput? && input.key.Some? && KeyHolds(db, p, input, d)
    ensures GetDecision(db, d, p).Some? && GetDecision(db, d, p).value.decisionId == d
    ensures GetDecision(db, d, p).value.body.request == input.request
  {
    hide LedgerOk, ApprovalsOk, GrantsOk;
    assert ReadableDecision(db, db.idempotency[(p, input.key.value)].decisionId);
  }

  lemma SaveOutcome(s: Settings, db: Database, authorization: Authorization, approval: Option<Approval>, input: Input)
    requires DatesOk(s, db) && input.AuthorizeInput? && authorization.body.request == input.request
    requires approval.Some? ==> approval.value.expiresAt == Some(approval.value.requestedAt + s.approvalTtl)
                                && approval.value.requestedAt == authorization.body.evaluatedAt
    requires SaveAuthorization(db, authorization, approval, IdempotencyOf(input)).Some?
    requires AddedDecision(db, SaveAuthorization(db, authorization, approval, IdempotencyOf(input)).value, authorization)
    requires forall d :: d in db.approvals ==> ReadableDecision(db, d)
    ensures var u := SaveAuthorization(db, authorization, approval, IdempotencyOf(input)).value;
            DatesOk(s, u) && AnswerOk(u, authorization.projectId, input, Authorized(authorization))
  {
    hide W.Append;
    var u := SaveAuthorization(db, authorization, approval, IdempotencyOf(input)).value;
    forall d | d in u.approvals && ReadableDecision(u, d)
      ensures u.approvals[d].requestedAt == BodyOf(u, d).evaluatedAt
    {
      if d != authorization.decisionId {
        assert BodyOf(u, d) == BodyOf(db, d);
      }
    }
  }

  lemma RejectStepKeeps(s: Settings, db: Database, p: Id, input: Input, pc: Pc)
    requires DbOk(s, db) && input.RejectInput? && PcOk(s, db, p, input, pc)
    requires !pc.SweepSelect? && !pc.SweepWrite? && !pc.Done?
    ensures Kept(s, db, p, input, StepReject(db, p, input, pc))
  {
    hide Accounted, Consistent, Evolves, Reject, DatesOk;
    var next := StepReject(db, p, input, pc);
    if pc.RejectWrite? && Reject(db, input.decisionId, p, input.actor, input.at).Ok? {
      RejectKeeps(db, input.decisionId, p, input.actor, input.at);
      RejectKeepsBooks(db, input.decisionId, p, input.actor, input.at);
      RejectOutcome(s, db, input.decisionId, p, input.actor, input.at);
    } else {
      ReadOnly(s, db, p, input, next);
    }
  }

  lemma RejectOutcome(s: Settings, db: Database, d: Id, p: Id, actor: string, at: Instant)
    requires DatesOk(s, db) && Reject(db, d, p, actor, at).Ok?
    ensures var u := Reject(db, d, p, actor, at).value;
            DatesOk(s, u) && d in u.approvals && u.approvals[d].status == Rejected
            && GetApproval(u, d, p) == Some(u.approvals[d])
  {
  }

  lemma ConsumeOutcome(s: Settings, db: Database, payload: Payload, tokenHash: TokenHash, actor: string, at: Instant)
    requires DatesOk(s, db) && Consume(db, payload, tokenHash, actor, at).Some?
    ensures var u := Consume(db, payload, tokenHash, actor, at).value;
            && DatesOk(s, u) && payload.decisionId in u.grants
            && db.grants[payload.decisionId].status == Active
            && u.grants[payload.decisionId] == db.grants[payload.decisionId].(status := Consumed,
                                                 consumedAt := Some(at), consumedBy := Some(actor))
            && u.grants.Keys == db.grants.Keys
  {
  }

  lemma LapseOutcome(s: Settings, db: Database, payload: Payload, at: Instant)
    requires DatesOk(s, db) && LapseGrant(db, payload, at).Some?
    ensures DatesOk(s, LapseGrant(db, payload, at).value)
  {
  }

  lemma ConsumeStepKeeps(s: Settings, db: Database, p: Id, input: Input, pc: Pc)
    requires DbOk(s, db) && input.ConsumeInput? && input.token.Some? && PcOk(s, db, p, input, pc)
    requires pc.ConsumeDecision? || pc.ConsumeRead? || pc.ConsumeLapse? || pc.ConsumeWrite?
    ensures Kept(s, db, p, input, StepConsume(db, p, input, pc))
  {
    hide Accounted, Consistent, Evolves, DatesOk, Consume, LapseGrant;
    var next := StepConsume(db, p, input, pc);
    var payload := input.token.value;
    if pc.ConsumeWrite? {
      ConsumeWriteKeeps(s, db, p, input);
    } else if pc.ConsumeLapse? && LapseGrant(db, payload, input.at).Some? {
      LapseGrantKeeps(db, payload, input.at);
      LapseGrantKeepsBooks(db, payload, input.at);
      LapseOutcome(s, db, payload, input.at);
    } else if pc.ConsumeLapse? {
      LapseRefused(db, p, input);
      ReadOnly(s, db, p, input, next);
    } else {
      ReadOnly(s, db, p, input, next);
    }
  }

  /** A checked, overdue grant cannot be expired only if another call ended it first. */
  lemma LapseRefused(db: Database, p: Id, input: Input)
    requires Consistent(db) && input.ConsumeInput? && CheckedGrant(db, p, input)
    requires input.token.value.expiresAt <= input.at
    ensures LapseGrant(db, input.token.value, input.at).None?
            <==> GetGrant(db, input.token.value.decisionId, p).value.status != Active
  {
  }

  /** A checked grant in time cannot be consumed only if another call ended it first. */
  lemma ConsumeRefused(db: Database, p: Id, input: Input)
    requires input.ConsumeInput? && CheckedGrant(db, p, input) && input.token.value.expiresAt > input.at
    ensures Consume(db, input.token.value, HashOfToken(input.token.value), input.actor, input.at).None?
            <==> GetGrant(db, input.token.value.decisionId, p).value.status != Active
  {
  }

  lemma ConsumeWriteKeeps(s: Settings, db: Database, p: Id, input: Input)
    requires DbOk(s, db) && input.ConsumeInput? && PcOk(s, db, p, input, ConsumeWrite)
    ensures Kept(s, db, p, input, StepConsume(db, p, input, ConsumeWrite))
  {
    hide Accounted, Consistent, Evolves, DatesOk, Consume;
    var next := StepConsume(db, p, input, ConsumeWrite);
    var payload := input.token.value;
    if Consume(db, payload, HashOfToken(payload), input.actor, input.at).Some? {
      ConsumeKeeps(db, payload, HashOfToken(payload), input.actor, input.at);
      ConsumeKeepsBooks(db, payload, HashOfToken(payload), input.actor, input.at);
      ConsumeOutcome(s, db, payload, HashOfToken(payload), input.actor, input.at);
    } else {
      ConsumeRefused(db, p, input);
      ReadOnly(s, db, p, input, next);
    }
  }

  /** Every step of every call keeps the tables, the books and what the call knows. */
  lemma StepKeeps(s: Settings, db: Database, p: Id, input: Input, pc: Pc, choice: Choice)
    requires DbOk(s, db) && p in db.projects && PcOk(s, db, p, input, pc)
    ensures Kept(s, db, p, input, Step(s, db, p, input, pc, choice))
  {
    hide DbOk, Kept, StepAuthorize, StepApprove, StepReject, StepConsume;
    match pc
    case SweepSelect(at, next) => SelectKeeps(s, db, p, at, input, next);
    case SweepWrite(at, due, next) => SweepKeeps(s, db, p, at, due, input, next);
    case Done(_) => ReadOnly(s, db, p, input, Next(db, pc));
    case ApproveWrite(grant) => ApproveWriteKeeps(s, db, p, input, grant, choice);
    case _ =>
      match input
      case AuthorizeInput(_, _) => AuthorizeStepKeeps(s, db, p, input, pc, choice);
      case ApproveInput(_, _, _) => ApproveStepKeeps(s, db, p, input, pc, choice);
      case RejectInput(_, _, _) => RejectStepKeeps(s, db, p, input, pc);
      case ConsumeInput(token, _, _, _) => ConsumeStepKeeps(s, db, p, input, pc);
      case SweepInput =>
  }
}
