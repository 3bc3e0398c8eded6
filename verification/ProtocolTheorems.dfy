/** What callers rely on, for every reachable configuration and every continuation of it. */
module ProtocolTheorems {
  import opened Ordering
  import opened Integrity
  import opened Store
  import opened StoreInvariants
  import opened Accounting
  import opened Protocol
  import opened ProtocolInvariants
  import opened ProtocolRuns
  import opened ProtocolVerdicts
  import L = Ledger
  import W = LedgerWrites
  import Export

  // ---------------------------------------------------------------- tables

  /** An approval exactly for each decision that requires one, a grant exactly for each
      approved approval, and every project's ledger verifies. */
  lemma ReachableTables(c: Config, d: Id, p: Id)
    requires Reachable(c)
    ensures d in c.db.approvals <==> ReadableDecision(c.db, d) && BodyOf(c.db, d).outcome == RequireApproval
    ensures d in c.db.grants <==> d in c.db.approvals && c.db.approvals[d].status == Approved
    ensures L.Verifies(c.db.ledger, c.db.ledger, c.db.ledger, p, None)
  {
    hide L.Verifies, W.Sound, DatesOk, Accounted, CallsOk, ConsumersOk, SavesOk, IdempotencyOk;
    ReachableOk(c);
    if d in c.db.grants {
      assert GrantOk(c.db, d);
    }
    LedgerIsSound(c.db);
    LedgerVerifies(c.db.ledger, p);
  }

  lemma LedgerVerifies(t: L.Tables, p: Id)
    requires W.Sound(t)
    ensures L.Verifies(t, t, t, p, None)
  {
    hide L.Verifies, W.SoundProject;
    W.SoundIsVerified(t, p);
  }

  /** Resolved approvals, ended grants, decisions, proofs and keys never change again, and
      the audit log and the outbox only grow. */
  lemma RowsFrozen(c: Config, actions: seq<Action>, d: Id)
    requires Reachable(c)
    ensures var u := Run(c, actions);
            && (d in c.db.approvals && c.db.approvals[d].status != Pending ==>
                  d in u.db.approvals && u.db.approvals[d] == c.db.approvals[d])
            && (d in c.db.grants && c.db.grants[d].status != Active ==>
                  d in u.db.grants && u.db.grants[d] == c.db.grants[d])
            && W.Grows(c.db.ledger, u.db.ledger)
            && (forall k :: k in c.db.idempotency ==> k in u.db.idempotency && u.db.idempotency[k] == c.db.idempotency[k])
            && c.db.audit <= u.db.audit && c.db.outbox <= u.db.outbox
  {
    hide Inv, Run, W.Grows;
    ReachableOk(c);
    RunKeeps(c, actions);
  }

  // ---------------------------------------------------------------- answers

  lemma AnswerStays(c: Config, action: Action, id: Id)
    requires id in c.calls && c.calls[id].pc.Done?
    ensures var u := Apply(c, action); id in u.calls && u.calls[id] == c.calls[id]
  {
    hide Entry, StepAuthorize, StepApprove, StepReject, StepConsume;
  }

  /** An answer, once given, is final. */
  lemma {:induction false} AnswersAreFinal(c: Config, actions: seq<Action>, id: Id)
    requires id in c.calls && c.calls[id].pc.Done?
    ensures var u := Run(c, actions); id in u.calls && u.calls[id] == c.calls[id]
    decreases |actions|
  {
    hide Apply;
    if actions != [] {
      AnswersAreFinal(c, actions[..|actions| - 1], id);
      AnswerStays(Run(c, actions[..|actions| - 1]), actions[|actions| - 1], id);
    }
  }

  /** What an answer says is true of the tables at every later moment. */
  lemma AnswerIsTrue(c: Config, id: Id)
    requires Reachable(c) && id in c.calls && c.calls[id].pc.Done?
    ensures AnswerOk(c.db, c.calls[id].project, c.calls[id].input, c.calls[id].pc.answer)
  {
    hide DbOk, ConsumersOk, SavesOk, AnswerOk;
    ReachableOk(c);
  }

  lemma ReachableConsistent(c: Config)
    requires Reachable(c)
    ensures DbOk(c.settings, c.db)
  {
    hide DbOk, ConsumersOk, SavesOk, CallsOk;
    ReachableOk(c);
  }

  /** What an unfinished call knows is true as well. */
  lemma CallKnown(c: Config, id: Id)
    requires Inv(c) && id in c.calls
    ensures var call := c.calls[id];
            DbOk(c.settings, c.db) && call.project in c.db.projects
            && PcOk(c.settings, c.db, call.project, call.input, call.pc)
  {
    hide DbOk, ConsumersOk, SavesOk;
    CallIsOk(c, id);
  }

  /** The one RuntimeError a call can end in is a failed grant expiration: a token can
      always be regenerated, and no approval lacks its decision or its grant. */
  lemma OnlyLapseFails(c: Config, id: Id)
    requires Reachable(c) && id in c.calls && c.calls[id].pc.Done? && c.calls[id].pc.answer.Crash?
    ensures c.calls[id].pc.answer.defect == LapseFailed
  {
    hide CheckedGrant;
    AnswerIsTrue(c, id);
  }

  /** It does happen: of two consumers that both found the grant overdue, the second one's
      guarded UPDATE matches no row. */
  lemma SecondExpirerFails(s: Settings, db: Database, p: Id, first: Input, second: Input, choice: Choice)
    requires DbOk(s, db) && PcOk(s, db, p, first, ConsumeLapse) && PcOk(s, db, p, second, ConsumeLapse)
    requires first.token == second.token && db.grants[first.token.value.decisionId].status == Active
    ensures var one := Step(s, db, p, first, ConsumeLapse, choice);
            var two := Step(s, one.db, p, second, ConsumeLapse, choice);
            one.pc == Done(GrantExpired) && two == Next(one.db, Done(Crash(LapseFailed)))
  {
    hide Accounted, DatesOk, LedgerOk, IdempotencyOk, ApprovalsOk;
  }

  /** The other error that no service catches is the validation of a resolved approval. Only
      a rejection ends in it: exactly when it is dated before the request it rejects. */
  lemma OnlyEarlyRejectionsAreInvalid(c: Config, id: Id, choice: Choice)
    requires Reachable(c) && id in c.calls && !c.calls[id].pc.Done?
    ensures id in Apply(c, Advance(id, choice)).calls
    ensures var (call, next) := (c.calls[id], Apply(c, Advance(id, choice)).calls[id].pc);
            next == Done(ValidationFailed) <==> call.pc == RejectWrite && RejectedTooEarly(c.db, call.project, call.input)
  {
    hide DbOk, Inv, StepAuthorize, StepApprove, StepConsume, ExpireDue, DueApprovals, AnswerOk;
    var call := c.calls[id];
    ReachableOk(c);
    CallKnown(c, id);
    if call.pc == RejectWrite {
      RejectIsInvalidIff(c.settings, c.db, call.project, call.input);
    } else {
      OthersAreValid(c.settings, c.db, call.project, call.input, call.pc, choice);
    }
  }

  predicate RejectedTooEarly(db: Database, p: Id, input: Input) {
    input.RejectInput?
    && var approval := GetApproval(db, input.decisionId, p);
       approval.Some? && approval.value.status == Pending && input.at < approval.value.requestedAt
  }

  /** A pending approval's window opens when it is requested, so a rejection before that is
      inside no window and yet not too late. */
  lemma RejectIsInvalidIff(s: Settings, db: Database, p: Id, input: Input)
    requires DbOk(s, db) && input.RejectInput?
    ensures StepReject(db, p, input, RejectWrite).pc == Done(ValidationFailed) <==> RejectedTooEarly(db, p, input)
  {
    hide LedgerOk, GrantsOk, IdempotencyOk, Accounted, DatesOk;
    if GetApproval(db, input.decisionId, p).Some? {
      assert ApprovalOk(db.approvals[input.decisionId]);
    }
  }

  lemma OthersAreValid(s: Settings, db: Database, p: Id, input: Input, pc: Pc, choice: Choice)
    requires DbOk(s, db) && p in db.projects && PcOk(s, db, p, input, pc) && !pc.Done? && pc != RejectWrite
    ensures Step(s, db, p, input, pc, choice).pc != Done(ValidationFailed)
  {
    hide DbOk, Evolves, StepAuthorize, StepApprove, StepConsume, Step;
    StepKeeps(s, db, p, input, pc, choice);
    if input.RejectInput? {
      RejectReadsAreValid(s, db, p, input, pc, choice);
    }
  }

  lemma RejectReadsAreValid(s: Settings, db: Database, p: Id, input: Input, pc: Pc, choice: Choice)
    requires input.RejectInput? && PcOk(s, db, p, input, pc) && !pc.Done? && pc != RejectWrite
    ensures Step(s, db, p, input, pc, choice).pc != Done(ValidationFailed)
  {
  }

  // ---------------------------------------------------------------- consumption

  /** At most one call ever consumes a decision's grant: any consumer in any continuation is
      the one already on record. */
  lemma ConsumedAtMostOnce(c: Config, actions: seq<Action>, d: Id, i: Id, j: Id)
    requires Reachable(c)
    requires i in c.calls && HasConsumed(c.calls[i], d)
    requires j in Run(c, actions).calls && HasConsumed(Run(c, actions).calls[j], d)
    ensures i == j
  {
    hide Inv, Run;
    ReachableOk(c);
    RunKeeps(c, actions);
    AnswersAreFinal(c, actions, i);
    SoleConsumer(Run(c, actions), d, i, j);
  }

  lemma SoleConsumer(c: Config, d: Id, i: Id, j: Id)
    requires Inv(c) && i in c.calls && HasConsumed(c.calls[i], d) && j in c.calls && HasConsumed(c.calls[j], d)
    ensures i == j
  {
    hide DbOk, CallsOk, SavesOk;
    assert c.consumers[d] == i;
    assert c.consumers[d] == j;
  }

  /** A successful consumption presents the request that was authorized, and comes before
      the approval's and the grant's lifetimes have both run out. */
  lemma ConsumptionIsBoundAndTimely(c: Config, id: Id)
    requires Reachable(c) && id in c.calls && c.calls[id].pc.Done? && c.calls[id].pc.answer.ConsumedAs?
    ensures var call := c.calls[id];
            var grant := call.pc.answer.grant;
            var d := grant.payload.decisionId;
            && ReadableDecision(c.db, d) && call.input.ConsumeInput?
            && call.input.presented == BodyOf(c.db, d).request
            && grant.consumedAt == Some(call.input.at)
            && d in c.db.approvals && c.db.approvals[d].status == Approved
            && call.input.at < c.db.approvals[d].requestedAt + c.settings.approvalTtl + c.settings.grantTtl
  {
    hide LedgerOk, IdempotencyOk, Accounted;
    ReachableConsistent(c);
    AnswerIsTrue(c, id);
    var d := c.calls[id].input.token.value.decisionId;
    assert GrantOk(c.db, d);
    assert ApprovalOk(c.db.approvals[d]);
  }

  /** A consumption that nobody interrupts. */
  function ConsumeAlone(s: Settings, db: Database, p: Id, input: Input, choice: Choice): Next
    requires input.ConsumeInput?
  {
    var checked := Step(s, db, p, input, Entry(p, input, choice.now), choice);
    var read := Step(s, checked.db, p, input, checked.pc, choice);
    Step(s, read.db, p, input, read.pc, choice)
  }

  predicate Consumable(db: Database, p: Id, input: Input)
    requires input.ConsumeInput?
  {
    && input.token.Some?
    && var grant := GetGrant(db, input.token.value.decisionId, p);
       grant.Some? && grant.value.payload == input.token.value && grant.value.status == Active
       && grant.value.payload.fingerprint == FingerprintOf(input.presented)
       && grant.value.payload.expiresAt > input.at
  }

  lemma GrantBinding(db: Database, p: Id, d: Id)
    requires Consistent(db) && GetGrant(db, d, p).Some?
    ensures var payload := GetGrant(db, d, p).value.payload;
            && GetGrant(db, d, p).value.tokenHash == HashOfToken(payload)
            && payload.decisionId == d && payload.projectId == p
            && GetDecision(db, d, p).Some?
            && FingerprintOf(GetDecision(db, d, p).value.body.request) == payload.fingerprint
  {
    hide LedgerOk, ApprovalsOk, IdempotencyOk;
    assert GrantOk(db, d);
  }

  /** Only a consumable grant passes all checks. */
  lemma ConsumableIffChecked(s: Settings, db: Database, p: Id, input: Input, choice: Choice)
    requires DbOk(s, db) && input.ConsumeInput?
    ensures var checked := Step(s, db, p, input, Entry(p, input, choice.now), choice);
            var read := Step(s, checked.db, p, input, checked.pc, choice);
            && read.db == db
            && (read.pc == ConsumeWrite <==> Consumable(db, p, input))
            && (read.pc == ConsumeWrite || read.pc == ConsumeLapse || (read.pc.Done? && !read.pc.answer.ConsumedAs?))
            && (read.pc == ConsumeLapse ==> input.token.Some? && !Consumable(db, p, input))
  {
    hide Accounted, DatesOk, Consistent, Consume, LapseGrant, GetDecision;
    if input.token.Some? && GetGrant(db, input.token.value.decisionId, p).Some? {
      GrantBinding(db, p, input.token.value.decisionId);
    }
  }

  lemma ConsumableIsConsumed(s: Settings, db: Database, p: Id, input: Input, choice: Choice)
    requires DbOk(s, db) && input.ConsumeInput? && Consumable(db, p, input)
    ensures var last := Step(s, db, p, input, ConsumeWrite, choice);
            last.pc.Done? && last.pc.answer.ConsumedAs? && !Consumable(last.db, p, input)
  {
    hide Consistent, Accounted, DatesOk, Consume, LapseGrant;
    var payload := input.token.value;
    GrantBinding(db, p, payload.decisionId);
    ConsumeRefused(db, p, input);
    ConsumeOutcome(s, db, payload, HashOfToken(payload), input.actor, input.at);
  }

  lemma LapseIsNoConsumption(s: Settings, db: Database, p: Id, input: Input, choice: Choice)
    requires input.ConsumeInput? && input.token.Some?
    ensures var last := Step(s, db, p, input, ConsumeLapse, choice);
            last.pc.Done? && !last.pc.answer.ConsumedAs? && last.pc.answer != GrantMismatch
  {
  }

  /** A lone consumption succeeds exactly when the token is the stored grant's, the request
      is the one it is bound to, and it is active and in time; it cannot succeed again, and
      a mismatch leaves the grant as it was. */
  lemma ConsumeAloneSucceedsIff(s: Settings, db: Database, p: Id, input: Input, choice: Choice)
    requires DbOk(s, db) && input.ConsumeInput?
    ensures var last := ConsumeAlone(s, db, p, input, choice);
            && last.pc.Done?
            && (last.pc.answer.ConsumedAs? <==> Consumable(db, p, input))
            && (last.pc.answer.ConsumedAs? ==> !Consumable(last.db, p, input))
            && (last.pc.answer == GrantMismatch ==> last.db == db)
  {
    hide Accounted, DatesOk, LedgerOk, IdempotencyOk, ApprovalsOk, GrantsOk, Entry, Consumable, StepConsume, Step;
    ConsumableIffChecked(s, db, p, input, choice);
    if Consumable(db, p, input) {
      ConsumableIsConsumed(s, db, p, input, choice);
    } else {
      LapseOrRefusal(s, db, p, input, choice);
    }
  }

  lemma LapseOrRefusal(s: Settings, db: Database, p: Id, input: Input, choice: Choice)
    requires DbOk(s, db) && input.ConsumeInput? && !Consumable(db, p, input)
    ensures var last := ConsumeAlone(s, db, p, input, choice);
            last.pc.Done? && !last.pc.answer.ConsumedAs? && (last.pc.answer == GrantMismatch ==> last.db == db)
  {
    hide DbOk, Entry, Consumable, StepConsume;
    ConsumableIffChecked(s, db, p, input, choice);
    var checked := Step(s, db, p, input, Entry(p, input, choice.now), choice);
    var read := Step(s, checked.db, p, input, checked.pc, choice);
    if read.pc == ConsumeLapse {
      LapseIsNoConsumption(s, db, p, input, choice);
    }
  }

  // ---------------------------------------------------------------- approval races

  /** All approvers of a decision that get a grant get the same one, so the same token. */
  lemma OneGrantForAllApprovers(c: Config, i: Id, j: Id)
    requires Reachable(c)
    requires i in c.calls && c.calls[i].pc.Done? && c.calls[i].pc.answer.Granted?
    requires j in c.calls && c.calls[j].pc.Done? && c.calls[j].pc.answer.Granted?
    requires c.calls[i].project == c.calls[j].project && c.calls[i].input.ApproveInput? && c.calls[j].input.ApproveInput?
    requires c.calls[i].input.decisionId == c.calls[j].input.decisionId
    ensures c.calls[i].pc.answer.issued.payload == c.calls[j].pc.answer.issued.payload
    ensures c.calls[i].pc.answer.approved == c.calls[j].pc.answer.approved
  {
    hide InProject;
    AnswerIsTrue(c, i);
    AnswerIsTrue(c, j);
  }

  /** A losing approver's steps from its refused write to its answer, uninterrupted. */
  function RecoverAlone(s: Settings, db: Database, p: Id, input: Input, grant: Grant, choice: Choice): Next
    requires input.ApproveInput?
  {
    var refused := Step(s, db, p, input, ApproveWrite(grant), choice);
    var selected := Step(s, refused.db, p, input, refused.pc, choice);
    var swept := Step(s, selected.db, p, input, selected.pc, choice);
    var reread := Step(s, swept.db, p, input, swept.pc, choice);
    Step(s, reread.db, p, input, reread.pc, choice)
  }

  /** An approver refused at its INSERT because another approved first gets the winner's
      grant exactly when that is still active and unexpired; otherwise it learns that the
      approval is resolved. */
  lemma LoserGetsWinnersGrant(s: Settings, db: Database, p: Id, input: Input, grant: Grant, choice: Choice)
    requires DbOk(s, db) && input.ApproveInput? && PcOk(s, db, p, input, ApproveWrite(grant))
    requires input.decisionId in db.approvals && db.approvals[input.decisionId].status == Approved
    ensures input.decisionId in db.grants
    ensures var d := input.decisionId;
            RecoverAlone(s, db, p, input, grant, choice).pc
            == Done(if Usable(db.grants[d], input.at) then Granted(db.approvals[d], db.grants[d])
                    else ApprovalResolvedAs(Approved))
  {
    hide Consistent, Accounted, DatesOk, DueApprovals, ExpireDue, Approve, Usable;
    var d := input.decisionId;
    GrantTargetHasApproval(db, p, input, grant, s);
    ApprovalHasDecision(db, d, p);
    LateApproveConflicts(db, grant, input.actor, input.at);
    SweepSpares(db, p, choice.now, DueApprovals(db, p, choice.now), d);
  }

  lemma LateApproveConflicts(db: Database, grant: Grant, actor: string, at: Instant)
    requires grant.payload.decisionId in db.grants
    ensures Approve(db, grant, actor, at) == Err(IntegrityConflict)
  {
  }

  /** The sweep touches no approval that is already resolved. */
  lemma {:induction false} SweepSpares(db: Database, p: Id, at: Instant, due: seq<Id>, d: Id)
    requires d in db.approvals && db.approvals[d].status != Pending
    ensures var u := ExpireDue(db, p, at, due);
            d in u.approvals && u.approvals[d] == db.approvals[d] && u.grants == db.grants && u.ledger == db.ledger
    decreases |due|
  {
    if due != [] {
      SweepSpares(db, p, at, due[..|due| - 1], d);
    }
  }

  /** Where an approver's next step hands out a grant. One that meets the approval APPROVED
      at the store's own check gets the grant in whatever state it is. */
  predicate HandsOut(db: Database, input: Input, pc: Pc)
    requires input.ApproveInput?
  {
    var d := input.decisionId;
    match pc
    case ApproveExisting(_) => d in db.grants && Usable(db.grants[d], input.at)
    case ApproveStored(_) => true
    case ApproveRecover(Some(approval)) => approval.status == Approved && d in db.grants && Usable(db.grants[d], input.at)
    case ApproveWrite(grant) => Approve(db, grant, input.actor, input.at).Ok?
    case _ => false
  }

  lemma ReadersHandOut(s: Settings, db: Database, p: Id, input: Input, pc: Pc, choice: Choice)
    requires DbOk(s, db) && input.ApproveInput? && PcOk(s, db, p, input, pc)
    requires pc.ApproveExisting? || pc.ApproveStored? || pc.ApproveRecover?
    ensures var (next, d) := (Step(s, db, p, input, pc, choice), input.decisionId);
            && next.db == db && next.pc.Done?
            && (next.pc.answer.Granted? <==> HandsOut(db, input, pc))
            && (next.pc.answer.Granted? ==> d in db.grants && d in db.approvals
                                            && next.pc.answer == Granted(db.approvals[d], db.grants[d]))
  {
    hide Accounted, DatesOk, Consistent, Approve, Usable;
    ApprovalHasDecision(db, input.decisionId, p);
  }

  lemma WriterHandsOut(s: Settings, db: Database, p: Id, input: Input, grant: Grant, choice: Choice)
    requires DbOk(s, db) && input.ApproveInput? && PcOk(s, db, p, input, ApproveWrite(grant))
    ensures var (next, d) := (Step(s, db, p, input, ApproveWrite(grant), choice), input.decisionId);
            && (next.pc.Done? && next.pc.answer.Granted? <==> HandsOut(db, input, ApproveWrite(grant)))
            && (next.pc.Done? && next.pc.answer.Granted? ==>
                  d in next.db.grants && d in next.db.approvals
                  && next.pc.answer == Granted(next.db.approvals[d], next.db.grants[d]) && next.db.grants[d] == grant)
  {
    hide Accounted, DatesOk, Consistent, Approve;
    ApproveAllOrNothing(db, grant, input.actor);
    if Approve(db, grant, input.actor, input.at).Ok? {
      ApproveOutcome(s, db, grant, input.actor);
    }
  }

  /** An approver's other steps end in no grant. */
  lemma OthersHandOutNothing(s: Settings, db: Database, p: Id, input: Input, pc: Pc, choice: Choice)
    requires input.ApproveInput? && PcOk(s, db, p, input, pc) && !pc.Done?
    requires !pc.ApproveExisting? && !pc.ApproveStored? && !pc.ApproveRecover? && !pc.ApproveWrite?
    ensures var next := Step(s, db, p, input, pc, choice); !(next.pc.Done? && next.pc.answer.Granted?)
  {
    hide DbOk, ExpireDue, DueApprovals, AnswerOk;
  }

  lemma StepHandsOut(s: Settings, db: Database, p: Id, input: Input, pc: Pc, choice: Choice)
    requires DbOk(s, db) && input.ApproveInput? && PcOk(s, db, p, input, pc) && !pc.Done?
    ensures var (next, d) := (Step(s, db, p, input, pc, choice), input.decisionId);
            && (next.pc.Done? && next.pc.answer.Granted? <==> HandsOut(db, input, pc))
            && (next.pc.Done? && next.pc.answer.Granted? ==>
                  d in next.db.grants && d in next.db.approvals
                  && next.pc.answer == Granted(next.db.approvals[d], next.db.grants[d]))
  {
    hide DbOk, Step, Approve, Usable;
    match pc
    case ApproveExisting(_) => ReadersHandOut(s, db, p, input, pc, choice);
    case ApproveStored(_) => ReadersHandOut(s, db, p, input, pc, choice);
    case ApproveRecover(_) => ReadersHandOut(s, db, p, input, pc, choice);
    case ApproveWrite(grant) => WriterHandsOut(s, db, p, input, grant, choice);
    case _ => OthersHandOutNothing(s, db, p, input, pc, choice);
  }

  /** Exactly when an approver's step ends with a grant, and which: the one that is stored
      then. It is usable where the service looked, and in any state where the store did. */
  lemma GrantedExactlyWhen(c: Config, id: Id, choice: Choice)
    requires Reachable(c) && id in c.calls && c.calls[id].input.ApproveInput? && !c.calls[id].pc.Done?
    ensures var u := Apply(c, Advance(id, choice));
            && id in u.calls
            && var (pc, d) := (u.calls[id].pc, c.calls[id].input.decisionId);
               && (pc.Done? && pc.answer.Granted? <==> HandsOut(c.db, c.calls[id].input, c.calls[id].pc))
               && (pc.Done? && pc.answer.Granted? ==>
                     d in u.db.grants && d in u.db.approvals && pc.answer == Granted(u.db.approvals[d], u.db.grants[d]))
  {
    hide DbOk, Inv, Step, HandsOut;
    var call := c.calls[id];
    ReachableOk(c);
    CallKnown(c, id);
    StepHandsOut(c.settings, c.db, call.project, call.input, call.pc, choice);
  }

  // ---------------------------------------------------------------- idempotent authorization

  /** At most one decision is ever saved under a project's key, and every stored decision
      comes from exactly one save. */
  lemma OneSavePerKey(c: Config, i: nat, j: nat)
    requires Reachable(c) && i < |c.saves| && j < |c.saves|
    requires c.saves[i].decisionId == c.saves[j].decisionId
             || (c.saves[i].project == c.saves[j].project && c.saves[i].key == c.saves[j].key && c.saves[i].key.Some?)
    ensures i == j
  {
    hide DbOk, ConsumersOk, CallsOk;
    ReachableOk(c);
    assert SaveOk(c.db, c.saves[i]) && SaveOk(c.db, c.saves[j]);
  }

  /** All callers of one project and key that get an authorization get the same one, each of
      them presented the very request that was authorized, and what they get carries the
      verdict that the policies gave to the step that saved it. */
  lemma SameKeySameDecision(c: Config, i: Id, j: Id)
    requires Reachable(c)
    requires i in c.calls && c.calls[i].pc.Done? && c.calls[i].pc.answer.Authorized?
    requires j in c.calls && c.calls[j].pc.Done? && c.calls[j].pc.answer.Authorized?
    requires c.calls[i].input.AuthorizeInput? && c.calls[j].input.AuthorizeInput?
    requires c.calls[i].project == c.calls[j].project
    requires c.calls[i].input.key == c.calls[j].input.key && c.calls[i].input.key.Some?
    ensures c.calls[i].pc.answer == c.calls[j].pc.answer
    ensures c.calls[i].input.request == c.calls[j].input.request
    ensures Carried(c, c.calls[i].pc.answer.authorization)
  {
    SameAnswer(c, i, j);
    AnswerIsCarried(c, i);
  }

  lemma SameAnswer(c: Config, i: Id, j: Id)
    requires Reachable(c)
    requires i in c.calls && c.calls[i].pc.Done? && c.calls[i].pc.answer.Authorized?
    requires j in c.calls && c.calls[j].pc.Done? && c.calls[j].pc.answer.Authorized?
    requires c.calls[i].input.AuthorizeInput? && c.calls[j].input.AuthorizeInput?
    requires c.calls[i].project == c.calls[j].project
    requires c.calls[i].input.key == c.calls[j].input.key && c.calls[i].input.key.Some?
    ensures c.calls[i].pc.answer == c.calls[j].pc.answer
    ensures c.calls[i].input.request == c.calls[j].input.request
  {
    hide InProject;
    AnswerIsTrue(c, i);
    AnswerIsTrue(c, j);
  }

  /** Every authorization ever answered, with a key or without, new or found again, is the
      verdict of the policies at the step that saved it. */
  lemma AnswerIsCarried(c: Config, id: Id)
    requires Reachable(c) && id in c.calls && c.calls[id].pc.Done? && c.calls[id].pc.answer.Authorized?
    ensures Carried(c, c.calls[id].pc.answer.authorization)
  {
    hide Reachable, Carried;
    AnswerIsTrue(c, id);
    var authorization := c.calls[id].pc.answer.authorization;
    ReachableCarries(c, authorization.decisionId);
    SavedRow(c.db, c.calls[id].project, authorization.decisionId, authorization);
  }

  /** A caller is told of a conflict only if its request differs from the saved one. */
  lemma ConflictMeansOtherRequest(c: Config, i: Id, j: Id)
    requires Reachable(c)
    requires i in c.calls && c.calls[i].pc == Done(KeyConflict) && c.calls[i].input.AuthorizeInput?
    requires j in c.calls && c.calls[j].pc.Done? && c.calls[j].pc.answer.Authorized? && c.calls[j].input.AuthorizeInput?
    requires c.calls[i].project == c.calls[j].project
    requires c.calls[i].input.key == c.calls[j].input.key
    ensures c.calls[i].input.request != c.calls[j].input.request
  {
    AnswerIsTrue(c, i);
    AnswerIsTrue(c, j);
  }

  /** A save with a new decision id and a positive lifetime fails only because another caller
      holds its key; otherwise it answers and stores the verdict of the policies. */
  lemma LosingSaveFindsWinner(s: Settings, db: Database, p: Id, input: Input, choice: Choice)
    requires DbOk(s, db) && p in db.projects && input.AuthorizeInput? && s.approvalTtl > 0
    requires choice.newId !in db.ledger.decisions && choice.evaluation.Some?
    ensures var next := Step(s, db, p, input, AuthorizeSave, choice);
            if input.key.Some? && (p, input.key.value) in db.idempotency then next == Next(db, AuthorizeLookup(true))
            else next.pc.Done? && next.pc.answer.Authorized?
                 && Carries(next.pc.answer.authorization, p, input, choice)
                 && GetDecision(next.db, choice.newId, p) == Some(next.pc.answer.authorization)
  {
    hide W.Append, DatesOk, Accounted, W.Sound;
    SaveCarriesVerdict(s, db, p, input, choice);
    LedgerIsSound(db);
    W.AppendKeepsSound(db.ledger, Authorization(choice.newId, p,
                         choice.evaluation.value.(evaluatedAt := choice.now, request := input.request)));
  }

  // ---------------------------------------------------------------- audit and outbox

  /** Replaying the audit log over the pending approvals yields the current tables, the outbox
      holds the audit log in order, and it has one event for each audit event, decision and
      approval of a project. */
  lemma ReachableBooks(c: Config, p: Id)
    requires Reachable(c)
    ensures Replay(Start(c.db), c.db.audit) == Some(ViewOf(c.db))
    ensures AuditPart(c.db.outbox) == c.db.audit
    ensures p in c.db.projects ==> Balanced(c.db, p)
  {
    hide Consistent, DatesOk, Start, ViewOf, Balanced, Replay, AuditPart;
    ReachableConsistent(c);
  }

  /** Each approval is resolved, and each grant issued and ended, by one event at most. */
  lemma ReachableEventsOnce(c: Config, i: nat, j: nat, d: Id)
    requires Reachable(c) && i < j < |c.db.audit|
    ensures !(Resolves(c.db.audit[i], d) && Resolves(c.db.audit[j], d))
    ensures !(Issues(c.db.audit[i], d) && Issues(c.db.audit[j], d))
    ensures !(Ends(c.db.audit[i], d) && Ends(c.db.audit[j], d))
  {
    hide Consistent, DatesOk, Start, ViewOf, Balanced, Replay;
    ReachableConsistent(c);
    OneEventPerTransition(Start(c.db), c.db.audit, i, j, d);
  }

  // ---------------------------------------------------------------- exports beside the protocol

  ghost predicate Continues(c: Config, u: Config) {
    exists actions :: Run(c, actions) == u
  }

  /** Every stop of a run continues the one before it. */
  ghost predicate Stops(stops: seq<Config>) {
    && (forall i :: 0 <= i < |stops| ==> Reachable(stops[i]))
    && (forall i :: 0 <= i < |stops| - 1 ==> Continues(stops[i], stops[i + 1]))
  }

  /** The ledgers an export reads while calls go on are sound and only grow, which is all that
      the export relies on. */
  lemma ExportsSeeGrowingLedgers(stops: seq<Config>)
    requires |stops| == 8 && Stops(stops)
    ensures Export.Moments([stops[0].db.ledger, stops[1].db.ledger, stops[2].db.ledger, stops[3].db.ledger,
                            stops[4].db.ledger, stops[5].db.ledger, stops[6].db.ledger, stops[7].db.ledger])
  {
    hide Reachable, Inv, W.Sound, W.Grows, Run;
    forall i | 0 <= i < 8 ensures W.Sound(stops[i].db.ledger) {
      ReachableSound(stops[i]);
    }
    forall i, j | 0 <= i < j < 8 ensures W.Grows(stops[i].db.ledger, stops[j].db.ledger) {
      LaterGrows(stops, i, j);
    }
  }

  lemma ReachableSound(c: Config)
    requires Reachable(c)
    ensures W.Sound(c.db.ledger)
  {
    hide Consistent, W.Sound;
    ReachableConsistent(c);
    LedgerIsSound(c.db);
  }

  lemma {:induction false} LaterGrows(stops: seq<Config>, i: nat, j: nat)
    requires Stops(stops) && i < j < |stops|
    ensures W.Grows(stops[i].db.ledger, stops[j].db.ledger)
    decreases j
  {
    hide Reachable, Inv, W.Grows, Run;
    assert Continues(stops[j - 1], stops[j - 1 + 1]);
    var actions :| Run(stops[j - 1], actions) == stops[j];
    ReachableOk(stops[j - 1]);
    RunKeeps(stops[j - 1], actions);
    if i < j - 1 {
      LaterGrows(stops, i, j - 1);
      GrowsTrans(stops[i].db.ledger, stops[j - 1].db.ledger, stops[j].db.ledger);
    }
  }

  lemma GrowsTrans(a: L.Tables, b: L.Tables, c: L.Tables)
    requires W.Grows(a, b) && W.Grows(b, c)
    ensures W.Grows(a, c)
  {
  }
}
