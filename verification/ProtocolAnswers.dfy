/** What each call answers and leaves behind, row by row: every call answers after a bounded
    number of its own steps, and for a call that nobody interrupts the answer and the new
    tables are given by the rows that were stored when it began. */
module ProtocolAnswers {
  import opened Ordering
  import opened Integrity
  import opened Store
  import opened StoreInvariants
  import opened Accounting
  import opened Protocol
  import opened ProtocolInvariants
  import opened ProtocolRuns
  import opened ProtocolVerdicts
  import opened ProtocolTheorems
  import L = Ledger
  import W = LedgerWrites

  // ---------------------------------------------------------------- every call answers

  /** How many of its own steps a call may still need. */
  ghost function Rank(pc: Pc): nat {
    match pc
    case SweepSelect(_, next) => 2 + Rank(next)
    case SweepWrite(_, _, next) => 1 + Rank(next)
    case AuthorizeLookup(recovering) => if recovering then 2 else 4
    case AuthorizeFetch(_) => 1
    case AuthorizeSave => 3
    case ApproveRead => 11
    case ApproveExisting(_) => 1
    case ApproveLoad => 10
    case ApproveCheck(_) => 7
    case ApproveStored(_) => 1
    case ApproveVerify(_) => 6
    case ApproveWrite(_) => 5
    case ApproveReread => 2
    case ApproveRecover(_) => 1
    case RejectRead => 2
    case RejectWrite => 1
    case ConsumeDecision => 3
    case ConsumeRead => 2
    case ConsumeLapse => 1
    case ConsumeWrite => 1
    case Done(_) => 0
  }

  lemma StepDescends(s: Settings, db: Database, p: Id, input: Input, pc: Pc, choice: Choice)
    requires PcOk(s, db, p, input, pc) && !pc.Done?
    ensures Rank(Step(s, db, p, input, pc, choice).pc) < Rank(pc)
  {
    hide StepAuthorize, StepApprove, StepConsume, KeyHolds, ReadEarlier, GrantToInsert, Reject, ExpireDue, DueApprovals, GetApproval, GetGrant;
    if !pc.SweepSelect? && !pc.SweepWrite? {
      match input
      case AuthorizeInput(_, _) => AuthorizeDescends(s, db, p, input, pc, choice);
      case ApproveInput(_, _, _) => ApproveDescends(s, db, p, input, pc, choice);
      case RejectInput(_, _, _) =>
      case ConsumeInput(_, _, _, _) => ConsumeDescends(s, db, p, input, pc, choice);
      case SweepInput =>
    }
  }

  lemma AuthorizeDescends(s: Settings, db: Database, p: Id, input: Input, pc: Pc, choice: Choice)
    requires input.AuthorizeInput? && (pc.AuthorizeLookup? || pc.AuthorizeFetch? || pc.AuthorizeSave?)
    ensures Rank(StepAuthorize(s, db, p, input, pc, choice).pc) < Rank(pc)
  {
    hide SaveAuthorization, GetDecision;
  }

  lemma ApproveDescends(s: Settings, db: Database, p: Id, input: Input, pc: Pc, choice: Choice)
    requires input.ApproveInput? && PcOk(s, db, p, input, pc) && !pc.SweepSelect? && !pc.SweepWrite? && !pc.Done?
    ensures Rank(StepApprove(s, db, p, input, pc, choice).pc) < Rank(pc)
  {
    hide KeyHolds, ReadEarlier, GrantToInsert, Approve, GetDecision, GetGrant, GetApproval, NewGrant, Usable, FailedApproval;
  }

  lemma ConsumeDescends(s: Settings, db: Database, p: Id, input: Input, pc: Pc, choice: Choice)
    requires input.ConsumeInput? && input.token.Some?
    requires pc.ConsumeDecision? || pc.ConsumeRead? || pc.ConsumeLapse? || pc.ConsumeWrite?
    ensures Rank(StepConsume(db, p, input, pc).pc) < Rank(pc)
  {
    hide Consume, LapseGrant, GetDecision, GetGrant, StatusAnswer;
  }

  /** How often a run gives the call its turn. */
  ghost function Turns(actions: seq<Action>, id: Id): nat {
    if actions == [] then 0
    else Turns(actions[..|actions| - 1], id)
         + (if actions[|actions| - 1].Advance? && actions[|actions| - 1].call == id then 1 else 0)
  }

  lemma TurnDescends(c: Config, action: Action, id: Id)
    requires Inv(c) && id in c.calls
    ensures id in Apply(c, action).calls
    ensures var (before, after) := (c.calls[id].pc, Apply(c, action).calls[id].pc);
            if action.Advance? && action.call == id then after.Done? || Rank(after) < Rank(before) else after == before
  {
    hide Inv, Step, Entry, Rank, DbOk, PcOk;
    if action.Advance? && action.call == id {
      CallKnown(c, id);
      var call := c.calls[id];
      if call.pc.Done? {
        AnswerStays(c, action, id);
      } else {
        StepDescends(c.settings, c.db, call.project, call.input, call.pc, action.choice);
      }
    }
  }

  /** Every turn brings a call closer to its answer, whatever other calls do in between. */
  lemma {:induction false} CallsDescend(c: Config, actions: seq<Action>, id: Id)
    requires Inv(c) && id in c.calls
    ensures id in Run(c, actions).calls
    ensures var after := Run(c, actions).calls[id].pc;
            after.Done? || Rank(after) + Turns(actions, id) <= Rank(c.calls[id].pc)
    decreases |actions|
  {
    hide Inv, Apply, Rank;
    if actions != [] {
      var n := |actions| - 1;
      CallsDescend(c, actions[..n], id);
      RunKeeps(c, actions[..n]);
      TurnDescends(Run(c, actions[..n]), actions[n], id);
      if Run(c, actions[..n]).calls[id].pc.Done? {
        AnswersAreFinal(Run(c, actions[..n]), [actions[n]], id);
        OneAction(Run(c, actions[..n]), actions[n]);
      }
    }
  }

  lemma OneAction(c: Config, action: Action)
    ensures Run(c, [action]) == Apply(c, action)
  {
    hide Apply;
    assert Run(c, [action][..0]) == c;
  }

  lemma EntryRank(p: Id, input: Input, now: Instant)
    ensures Rank(Entry(p, input, now)) <= 13
  {
  }

  /** A call that has begun answers by its thirteenth turn at the latest: nothing waits for
      another call, and no call can be kept from its answer by others. */
  lemma EveryCallAnswers(c: Config, actions: seq<Action>, id: Id, p: Id, input: Input, now: Instant)
    requires Reachable(c) && id !in c.calls && p in c.db.projects
    requires Turns(actions, id) >= 13
    ensures var u := Run(Apply(c, Begin(id, p, input, now)), actions);
            id in u.calls && u.calls[id].pc.Done?
  {
    hide Inv, Reachable, Entry, Run, Turns;
    EntryRank(p, input, now);
    ReachableOk(c);
    ApplyKeeps(c, Begin(id, p, input, now));
    CallsDescend(Apply(c, Begin(id, p, input, now)), actions, id);
  }

  // ---------------------------------------------------------------- the rows a call finds

  predicate OfProject(db: Database, d: Id, p: Id) {
    d in db.ledger.decisions && db.ledger.decisions[d].projectId == p
  }

  /** The project has an approval for this decision. */
  predicate HasApproval(db: Database, d: Id, p: Id) {
    d in db.approvals && OfProject(db, d, p)
  }

  predicate Overdue(db: Database, d: Id, p: Id, at: Instant) {
    HasApproval(db, d, p) && db.approvals[d].status == Pending
    && db.approvals[d].expiresAt.Some? && db.approvals[d].expiresAt.value <= at
  }

  /** One audit event and one outbox event holding it are added. */
  predicate Logged(db: Database, u: Database, event: AuditEvent) {
    u.audit == db.audit + [event] && u.outbox == db.outbox + [FromAudit(event)]
  }

  // ---------------------------------------------------------------- sweeps

  function Sweep(db: Database, p: Id, at: Instant): Database {
    ExpireDue(db, p, at, DueApprovals(db, p, at))
  }

  function RanOut(db: Database, d: Id): Instant {
    if d in db.approvals && db.approvals[d].expiresAt.Some? then db.approvals[d].expiresAt.value else 0
  }

  /** The overdue approvals, the one that ran out first in front. */
  ghost predicate ExpiryOrder(db: Database, p: Id, at: Instant, order: seq<Id>) {
    && (forall d :: d in order <==> Overdue(db, d, p, at))
    && forall i, j :: 0 <= i < j < |order| ==>
         RanOut(db, order[i]) < RanOut(db, order[j]) || (RanOut(db, order[i]) == RanOut(db, order[j]) && order[i] < order[j])
  }

  function Lapses(p: Id, at: Instant, order: seq<Id>): seq<AuditEvent> {
    seq(|order|, i requires 0 <= i < |order| => ApprovalLapsed(p, order[i], at))
  }

  function Copies(events: seq<AuditEvent>): seq<Event> {
    seq(|events|, i requires 0 <= i < |events| => FromAudit(events[i]))
  }

  /** The project's overdue approvals have expired at this time, each with one event in the
      order they ran out; every other row of every table is as it was. */
  ghost predicate SweptTo(db: Database, u: Database, p: Id, at: Instant) {
    && u.projects == db.projects && u.ledger == db.ledger && u.grants == db.grants && u.idempotency == db.idempotency
    && u.approvals.Keys == db.approvals.Keys
    && (forall d :: d in db.approvals ==>
          u.approvals[d] == if Overdue(db, d, p, at)
                            then Approval(Expired, db.approvals[d].requestedAt, db.approvals[d].expiresAt, Some(at), Some("decaustrum-expiration"))
                            else db.approvals[d])
    && exists order :: ExpiryOrder(db, p, at, order)
                       && u.audit == db.audit + Lapses(p, at, order)
                       && u.outbox == db.outbox + Copies(Lapses(p, at, order))
  }

  lemma {:induction false} ExpireEach(db: Database, p: Id, at: Instant, due: seq<Id>)
    requires forall d :: d in due ==> Overdue(db, d, p, at)
    requires forall i, j :: 0 <= i < j < |due| ==> due[i] != due[j]
    ensures var u := ExpireDue(db, p, at, due);
            && u.projects == db.projects && u.ledger == db.ledger && u.grants == db.grants && u.idempotency == db.idempotency
            && u.approvals.Keys == db.approvals.Keys
            && (forall d :: d in db.approvals ==>
                  u.approvals[d] == if d in due
                                    then Approval(Expired, db.approvals[d].requestedAt, db.approvals[d].expiresAt, Some(at), Some("decaustrum-expiration"))
                                    else db.approvals[d])
            && u.audit == db.audit + Lapses(p, at, due) && u.outbox == db.outbox + Copies(Lapses(p, at, due))
    decreases |due|
  {
    hide ExpireOne;
    if due != [] {
      var n := |due| - 1;
      ExpireEach(db, p, at, due[..n]);
      assert due == due[..n] + [due[n]];
      assert Overdue(db, due[n], p, at);
      ExpireOneMeans(ExpireDue(db, p, at, due[..n]), p, at, due[n]);
      LapsesGrow(p, at, due);
    }
  }

  lemma ExpireOneMeans(db: Database, p: Id, at: Instant, d: Id)
    requires Overdue(db, d, p, at)
    ensures var (u, row) := (ExpireOne(db, p, at, d), Approval(Expired, db.approvals[d].requestedAt, db.approvals[d].expiresAt,
                                                               Some(at), Some("decaustrum-expiration")));
            && u == db.(approvals := db.approvals[d := row], audit := u.audit, outbox := u.outbox)
            && Logged(db, u, ApprovalLapsed(p, d, at))
  {
  }

  lemma LapsesGrow(p: Id, at: Instant, due: seq<Id>)
    requires due != []
    ensures var (last, n) := (ApprovalLapsed(p, due[|due| - 1], at), |due| - 1);
            && Lapses(p, at, due) == Lapses(p, at, due[..n]) + [last]
            && Copies(Lapses(p, at, due)) == Copies(Lapses(p, at, due[..n])) + [FromAudit(last)]
  {
  }

  lemma SweepMeans(db: Database, p: Id, at: Instant)
    ensures SweptTo(db, Sweep(db, p, at), p, at)
  {
    hide ExpireDue;
    var due := DueApprovals(db, p, at);
    assert ExpiryOrder(db, p, at, due);
    ExpireEach(db, p, at, due);
  }

  // ---------------------------------------------------------------- a call on its own

  /** n steps of a call that nobody interrupts. */
  function Alone(s: Settings, db: Database, p: Id, input: Input, pc: Pc, choice: Choice, n: nat): Next
    decreases n
  {
    if n == 0 then Next(db, pc)
    else
      var first := Step(s, db, p, input, pc, choice);
      Alone(s, first.db, p, input, first.pc, choice, n - 1)
  }

  lemma {:induction false} AloneStops(s: Settings, db: Database, p: Id, input: Input, answer: Answer, choice: Choice, n: nat)
    ensures Alone(s, db, p, input, Done(answer), choice, n) == Next(db, Done(answer))
  {
    if n > 0 {
      AloneStops(s, db, p, input, answer, choice, n - 1);
    }
  }

  lemma AloneSweeps(s: Settings, db: Database, p: Id, input: Input, at: Instant, next: Pc, choice: Choice, n: nat)
    requires n >= 2
    ensures Alone(s, db, p, input, SweepSelect(at, next), choice, n)
            == Alone(s, Sweep(db, p, at), p, input, next, choice, n - 2)
  {
    hide DueApprovals, ExpireDue;
    var selected := Step(s, db, p, input, SweepSelect(at, next), choice);
    var swept := Step(s, db, p, input, selected.pc, choice);
    assert Alone(s, db, p, input, selected.pc, choice, n - 1) == Alone(s, swept.db, p, input, swept.pc, choice, n - 2);
  }

  // ---------------------------------------------------------------- rejection

  /** A rejecting call's two own steps, whatever committed before each of them. */
  lemma RejectStepAnswers(s: Settings, db: Database, p: Id, input: Input, choice: Choice)
    requires input.RejectInput?
    ensures var d := input.decisionId;
            Step(s, db, p, input, RejectRead, choice)
            == Next(db, if HasApproval(db, d, p) && db.approvals[d].status == Expired then Done(ApprovalExpired) else RejectWrite)
    ensures var (d, at, next) := (input.decisionId, input.at, Step(s, db, p, input, RejectWrite, choice));
            && next.pc.Done?
            && (next.pc.answer == ApprovalNotFound <==> !HasApproval(db, d, p))
            && (next.pc.answer == ApprovalExpired <==> Overdue(db, d, p, at))
            && (forall x :: next.pc.answer == ApprovalResolvedAs(x) <==> HasApproval(db, d, p) && db.approvals[d].status == x != Pending)
            && (next.pc.answer == ValidationFailed <==>
                  HasApproval(db, d, p) && db.approvals[d].status == Pending && !Overdue(db, d, p, at)
                  && at < db.approvals[d].requestedAt)
            && (next.pc.answer.RejectedAs? <==> Rejectable(db, d, p, at))
            && (if Rejectable(db, d, p, at) then RejectedRow(db, next, input, p) else next.db == db)
  {
  }

  /** Pending, and at lies in the window from the request to the end of its lifetime. */
  predicate Rejectable(db: Database, d: Id, p: Id, at: Instant) {
    HasApproval(db, d, p)
    && var row := db.approvals[d];
       row.status == Pending && row.requestedAt <= at && (row.expiresAt.Some? ==> at < row.expiresAt.value)
  }

  /** The rejected row names the actor and the time, one event names them as well, and nothing
      else changed. */
  predicate RejectedRow(db: Database, next: Next, input: Input, p: Id)
    requires input.RejectInput?
  {
    var (d, actor, at) := (input.decisionId, input.actor, input.at);
    d in db.approvals
    && var row := Approval(Rejected, db.approvals[d].requestedAt, db.approvals[d].expiresAt, Some(at), Some(actor));
       && next.pc == Done(RejectedAs(row))
       && next.db == db.(approvals := db.approvals[d := row], audit := next.db.audit, outbox := next.db.outbox)
       && Logged(db, next.db, ApprovalResolved(p, d, Rejected, at, actor))
  }

  /** What a rejection that nobody interrupts answers and leaves, by the row it finds when it
      begins. It goes through exactly for a pending approval of the project inside its window. */
  lemma RejectAnswers(s: Settings, db: Database, p: Id, input: Input, choice: Choice, n: nat)
    requires input.RejectInput? && n >= 4
    ensures var (d, at) := (input.decisionId, input.at);
            var swept := Sweep(db, p, at);
            var last := Alone(s, db, p, input, Entry(p, input, choice.now), choice, n);
            && SweptTo(db, swept, p, at)
            && last.pc.Done?
            && (last.pc.answer == ApprovalNotFound <==> !HasApproval(db, d, p))
            && (last.pc.answer == ApprovalExpired <==>
                  HasApproval(db, d, p) && (db.approvals[d].status == Expired || Overdue(db, d, p, at)))
            && (forall x :: last.pc.answer == ApprovalResolvedAs(x) <==>
                  HasApproval(db, d, p) && db.approvals[d].status == x && x in {Approved, Rejected})
            && (last.pc.answer == ValidationFailed <==>
                  HasApproval(db, d, p) && db.approvals[d].status == Pending && !Overdue(db, d, p, at)
                  && at < db.approvals[d].requestedAt)
            && (last.pc.answer.RejectedAs? <==> Rejectable(db, d, p, at))
            && (if Rejectable(db, d, p, at) then RejectedRow(swept, last, input, p) else last.db == swept)
  {
    hide Step, Sweep, Rejectable, RejectedRow;
    var swept := Sweep(db, p, input.at);
    SweepMeans(db, p, input.at);
    AloneSweeps(s, db, p, input, input.at, RejectRead, choice, n);
    RejectStepAnswers(s, swept, p, input, choice);
    SweptRow(db, swept, p, input.at, input.decisionId);
    var read := Step(s, swept, p, input, RejectRead, choice);
    if read.pc.Done? {
      AloneStops(s, swept, p, input, ApprovalExpired, choice, n - 3);
    } else {
      var written := Step(s, swept, p, input, RejectWrite, choice);
      assert Alone(s, swept, p, input, RejectWrite, choice, n - 3) == Alone(s, written.db, p, input, written.pc, choice, n - 4);
      AloneStops(s, written.db, p, input, written.pc.answer, choice, n - 4);
    }
  }

  /** What the sweep did to one row. */
  lemma SweptRow(db: Database, u: Database, p: Id, at: Instant, d: Id)
    requires SweptTo(db, u, p, at)
    ensures HasApproval(u, d, p) <==> HasApproval(db, d, p)
    ensures HasApproval(db, d, p) ==>
              && (u.approvals[d].status == Expired <==> db.approvals[d].status == Expired || Overdue(db, d, p, at))
              && (u.approvals[d].status != Expired ==> u.approvals[d] == db.approvals[d])
    ensures !Overdue(u, d, p, at)
    ensures Rejectable(u, d, p, at) <==> Rejectable(db, d, p, at)
    ensures Rejectable(db, d, p, at) ==> HasApproval(db, d, p) && db.approvals[d].status == Pending && !Overdue(db, d, p, at)
  {
  }

  // ---------------------------------------------------------------- consumption

  /** The token is the one of the project's stored grant. */
  predicate StoredGrant(db: Database, p: Id, payload: Payload) {
    payload.projectId == p && payload.decisionId in db.grants && db.grants[payload.decisionId].payload == payload
  }

  /** The consumed row names the consumer and the time, one event names them as well, and
      nothing else changed. */
  predicate ConsumedRow(db: Database, next: Next, payload: Payload, actor: string, at: Instant) {
    var d := payload.decisionId;
    var row := Grant(payload, Consumed, HashOfToken(payload), Some(at), Some(actor));
    && next.pc == Done(ConsumedAs(row))
    && next.db == db.(grants := db.grants[d := row], audit := next.db.audit, outbox := next.db.outbox)
    && Logged(db, next.db, GrantConsumed(payload.projectId, d, at, actor))
  }

  /** The overdue grant is marked expired with one event, and nothing else changed. */
  predicate LapsedRow(db: Database, next: Next, payload: Payload, at: Instant) {
    var d := payload.decisionId;
    && d in db.grants
    && next.db == db.(grants := db.grants[d := db.grants[d].(status := Lapsed)], audit := next.db.audit, outbox := next.db.outbox)
    && Logged(db, next.db, GrantLapsed(payload.projectId, d, at))
  }

  /** What a consumption that nobody interrupts answers and leaves, by the stored grant. */
  predicate ConsumptionMeans(db: Database, last: Next, p: Id, input: Input)
    requires input.ConsumeInput?
  {
    if input.token.None? || !StoredGrant(db, p, input.token.value) then last == Next(db, Done(InvalidGrant))
    else
      var payload := input.token.value;
      if payload.fingerprint != FingerprintOf(input.presented) then last == Next(db, Done(GrantMismatch))
      else
        match db.grants[payload.decisionId].status
        case Consumed => last == Next(db, Done(GrantAlreadyConsumed))
        case Lapsed => last == Next(db, Done(GrantExpired))
        case Active =>
          if payload.expiresAt <= input.at then last.pc == Done(GrantExpired) && LapsedRow(db, last, payload, input.at)
          else ConsumedRow(db, last, payload, input.actor, input.at)
  }

  lemma ConsumeAnswers(s: Settings, db: Database, p: Id, input: Input, choice: Choice, n: nat)
    requires Consistent(db) && input.ConsumeInput? && n >= 3
    ensures ConsumptionMeans(db, Alone(s, db, p, input, Entry(p, input, choice.now), choice, n), p, input)
  {
    hide Consistent, Step, ConsumptionMeans, GetDecision, GetGrant;
    if input.token.None? || input.token.value.projectId != p {
      AloneStops(s, db, p, input, InvalidGrant, choice, n);
      NoConsumption(db, p, input);
    } else {
      ConsumeChecks(s, db, p, input, choice);
      var checked := Step(s, db, p, input, ConsumeDecision, choice);
      assert Alone(s, db, p, input, ConsumeDecision, choice, n) == Alone(s, checked.db, p, input, checked.pc, choice, n - 1);
      if checked.pc.Done? {
        AloneStops(s, db, p, input, checked.pc.answer, choice, n - 1);
      } else {
        var read := Step(s, db, p, input, ConsumeRead, choice);
        var last := Step(s, read.db, p, input, read.pc, choice);
        assert Alone(s, db, p, input, ConsumeRead, choice, n - 1) == Alone(s, read.db, p, input, read.pc, choice, n - 2);
        assert Alone(s, read.db, p, input, read.pc, choice, n - 2) == Alone(s, last.db, p, input, last.pc, choice, n - 3);
        AloneStops(s, last.db, p, input, last.pc.answer, choice, n - 3);
      }
    }
  }

  lemma NoConsumption(db: Database, p: Id, input: Input)
    requires input.ConsumeInput? && (input.token.None? || input.token.value.projectId != p)
    ensures ConsumptionMeans(db, Next(db, Done(InvalidGrant)), p, input)
  {
  }

  lemma ConsumeChecks(s: Settings, db: Database, p: Id, input: Input, choice: Choice)
    requires Consistent(db) && input.ConsumeInput? && input.token.Some? && input.token.value.projectId == p
    ensures var checked := Step(s, db, p, input, ConsumeDecision, choice);
            && checked.db == db && (checked.pc.Done? || checked.pc == ConsumeRead)
            && (checked.pc.Done? ==> ConsumptionMeans(db, checked, p, input))
            && (checked.pc == ConsumeRead ==>
                  var read := Step(s, db, p, input, ConsumeRead, choice);
                  var last := Step(s, read.db, p, input, read.pc, choice);
                  last.pc.Done? && ConsumptionMeans(db, last, p, input))
  {
    hide Consistent;
    if GetGrant(db, input.token.value.decisionId, p).Some? {
      GrantBinding(db, p, input.token.value.decisionId);
      NotConsumedYet(db, input.token.value.decisionId);
    }
  }

  /** Only a consumed grant says when and by whom. */
  lemma NotConsumedYet(db: Database, d: Id)
    requires Consistent(db) && d in db.grants
    ensures db.grants[d].status != Consumed ==> db.grants[d].consumedAt.None? && db.grants[d].consumedBy.None?
  {
    hide LedgerOk, ApprovalsOk, IdempotencyOk;
    assert GrantOk(db, d);
  }

  /** What a consumer's write answers when other calls came in between: by the status that
      the checked grant has by then. */
  lemma ConsumeWriteAnswers(s: Settings, db: Database, p: Id, input: Input, choice: Choice)
    requires input.ConsumeInput? && PcOk(s, db, p, input, ConsumeWrite)
    ensures var next := Step(s, db, p, input, ConsumeWrite, choice);
            match db.grants[input.token.value.decisionId].status
            case Consumed => next == Next(db, Done(GrantAlreadyConsumed))
            case Lapsed => next == Next(db, Done(GrantExpired))
            case Active => next.pc.Done? && next.pc.answer.ConsumedAs?
                           && next.pc.answer.grant.consumedAt == Some(input.at) && next.pc.answer.grant.consumedBy == Some(input.actor)
                           && Logged(db, next.db, GrantConsumed(p, input.token.value.decisionId, input.at, input.actor))
  {
  }

  // ---------------------------------------------------------------- approval

  /** No stored grant has the drawn id. */
  ghost predicate FreshGrant(db: Database, grantId: Id) {
    forall e :: e in db.grants ==> db.grants[e].payload.grantId != grantId
  }

  /** The approved row, the grant bound to the decision's request, their two events, and
      nothing else. */
  predicate ApprovedRows(s: Settings, db: Database, next: Next, p: Id, input: Input, choice: Choice)
    requires input.ApproveInput?
  {
    var (d, actor, at) := (input.decisionId, input.actor, input.at);
    d in db.approvals && d in db.ledger.decisions && db.ledger.decisions[d].body.Some?
    && var payload := Payload(choice.newId, d, p, FingerprintOf(db.ledger.decisions[d].body.value.request), at, at + s.grantTtl);
       var grant := Grant(payload, Active, HashOfToken(payload), None, None);
       var row := Approval(Approved, db.approvals[d].requestedAt, db.approvals[d].expiresAt, Some(at), Some(actor));
       var events := [ApprovalResolved(p, d, Approved, at, actor), GrantIssued(p, d, choice.newId, at, at + s.grantTtl)];
       && next.pc == Done(Granted(row, grant))
       && next.db == db.(approvals := db.approvals[d := row], grants := db.grants[d := grant],
                         audit := db.audit + events, outbox := db.outbox + Copies(events))
  }

  /** What an approval that nobody interrupts answers and leaves, by the approval it finds
      and the databases after its sweep at entry and its sweep before the write. */
  ghost predicate ApprovalMeans(s: Settings, db: Database, first: Database, second: Database, last: Next,
                                p: Id, input: Input, choice: Choice)
    requires input.ApproveInput?
  {
    var (d, at) := (input.decisionId, input.at);
    if !HasApproval(db, d, p) then last == Next(first, Done(ApprovalNotFound))
    else
      var row := db.approvals[d];
      match row.status
      case Approved =>
        last == Next(first, Done(if d in db.grants && db.grants[d].status == Active && at < db.grants[d].payload.expiresAt
                                 then Granted(row, db.grants[d]) else ApprovalResolvedAs(Approved)))
      case Rejected => last == Next(first, Done(ApprovalResolvedAs(Rejected)))
      case Expired => last == Next(first, Done(ApprovalExpired))
      case Pending =>
        if Overdue(db, d, p, choice.now) then last == Next(first, Done(ApprovalExpired))
        else if Overdue(db, d, p, at) then last == Next(second, Done(ApprovalExpired))
        else if row.requestedAt <= at && s.grantTtl > 0 && FreshGrant(db, choice.newId)
        then ApprovedRows(s, second, last, p, input, choice)
        else last == Next(second, Done(ApprovalResolvedAs(Pending)))
  }

  lemma ApproveAnswers(s: Settings, db: Database, p: Id, input: Input, choice: Choice, n: nat)
    requires DbOk(s, db) && p in db.projects && input.ApproveInput? && n >= 13
    ensures var first := Sweep(db, p, choice.now);
            var second := Sweep(first, p, input.at);
            && SweptTo(db, first, p, choice.now) && SweptTo(first, second, p, input.at)
            && ApprovalMeans(s, db, first, second, Alone(s, db, p, input, Entry(p, input, choice.now), choice, n), p, input, choice)
  {
    hide DbOk, Step, Sweep, SweptTo, ApprovalMeans, ApprovedRows, Overdue, HasApproval;
    var (d, at) := (input.decisionId, input.at);
    var first := Sweep(db, p, choice.now);
    var second := Sweep(first, p, at);
    SweepMeans(db, p, choice.now);
    SweepMeans(first, p, at);
    SweepOk(s, db, p, choice.now);
    SweepOk(s, first, p, at);
    AloneSweeps(s, db, p, input, choice.now, ApproveRead, choice, n);
    ApproveReads(s, db, first, second, p, input, choice);
    var read := Step(s, first, p, input, ApproveRead, choice);
    assert Alone(s, first, p, input, ApproveRead, choice, n - 2) == Alone(s, first, p, input, read.pc, choice, n - 3);
    if read.pc.Done? {
      AloneStops(s, first, p, input, read.pc.answer, choice, n - 3);
    } else {
      var next := Step(s, first, p, input, read.pc, choice);
      assert Alone(s, first, p, input, read.pc, choice, n - 3) == Alone(s, first, p, input, next.pc, choice, n - 4);
      if next.pc.Done? {
        AloneStops(s, first, p, input, next.pc.answer, choice, n - 4);
      } else {
        AloneSweeps(s, first, p, input, at, next.pc.next, choice, n - 4);
        ApproveOnceLoaded(s, db, p, input, next.pc.next.grant, choice, n - 6);
      }
    }
  }

  /** The read on entry and the one after it: an answer, or a grant to be inserted. */
  lemma ApproveReads(s: Settings, db: Database, first: Database, second: Database, p: Id, input: Input, choice: Choice)
    requires DbOk(s, first) && input.ApproveInput? && SweptTo(db, first, p, choice.now)
    ensures var (d, at, read) := (input.decisionId, input.at, Step(s, first, p, input, ApproveRead, choice));
            && read.db == first
            && (read.pc.Done? ==> ApprovalMeans(s, db, first, second, read, p, input, choice))
            && (!read.pc.Done? ==>
                  var next := Step(s, first, p, input, read.pc, choice);
                  && next.db == first
                  && (next.pc.Done? ==> ApprovalMeans(s, db, first, second, next, p, input, choice))
                  && (!next.pc.Done? ==>
                        && HasApproval(db, d, p) && db.approvals[d].status == Pending && !Overdue(db, d, p, choice.now)
                        && HasApproval(first, d, p) && first.approvals[d] == db.approvals[d]
                        && next.pc.SweepSelect? && next.pc.at == at && next.pc.next.ApproveCheck?
                        && GrantToInsert(s, first, p, input, next.pc.next.grant)
                        && next.pc.next.grant.payload.grantId == choice.newId && next.pc.next.grant.payload.issuedAt == at))
  {
    hide Accounted, DatesOk, Consistent;
    var d := input.decisionId;
    if HasApproval(first, d, p) {
      ApprovalHasDecision(first, d, p);
    }
  }

  lemma SweepOk(s: Settings, db: Database, p: Id, at: Instant)
    requires DbOk(s, db)
    ensures DbOk(s, Sweep(db, p, at)) && Sweep(db, p, at).projects == db.projects
  {
    hide Consistent, Accounted, DatesOk, DueApprovals, ExpireDue, Evolves;
    var due := DueApprovals(db, p, at);
    ExpireDueKeeps(db, p, at, due);
    ExpireDueKeepsBooks(db, p, at, due);
    ExpireDueDates(s, db, p, at, due);
    SweepMeans(db, p, at);
  }

  lemma InsertAfterSweep(s: Settings, db: Database, p: Id, at: Instant, input: Input, grant: Grant)
    requires DbOk(s, db) && input.ApproveInput? && GrantToInsert(s, db, p, input, grant)
    ensures GrantToInsert(s, Sweep(db, p, at), p, input, grant)
  {
    hide Consistent, Accounted, DatesOk, DueApprovals, ExpireDue, Evolves, GrantToInsert;
    ExpireDueKeeps(db, p, at, DueApprovals(db, p, at));
    StableGrantToInsert(s, db, Sweep(db, p, at), p, input, grant);
  }

  /** The store's own check and its look at the decision. */
  lemma ApproveChecks(s: Settings, db: Database, p: Id, input: Input, grant: Grant, choice: Choice)
    requires DbOk(s, db) && input.ApproveInput? && GrantToInsert(s, db, p, input, grant)
    requires HasApproval(db, input.decisionId, p)
    ensures var (checked, verified) := (Step(s, db, p, input, ApproveCheck(grant), choice), Step(s, db, p, input, ApproveVerify(grant), choice));
            && (db.approvals[input.decisionId].status == Expired ==> checked == Next(db, Done(ApprovalExpired)))
            && (db.approvals[input.decisionId].status == Pending ==> checked == Next(db, ApproveVerify(grant)))
            && verified == Next(db, ApproveWrite(grant))
  {
    hide Accounted, DatesOk, Consistent;
    ApprovalHasDecision(db, input.decisionId, p);
  }

  /** A pending approval that is not overdue is inside its window from its request on. */
  lemma ApproveWrites(s: Settings, db: Database, p: Id, input: Input, grant: Grant, choice: Choice)
    requires DbOk(s, db) && input.ApproveInput? && GrantToInsert(s, db, p, input, grant)
    requires HasApproval(db, input.decisionId, p) && db.approvals[input.decisionId].status == Pending
    requires !Overdue(db, input.decisionId, p, input.at)
    requires grant.payload.grantId == choice.newId && grant.payload.issuedAt == input.at
    ensures var written := Step(s, db, p, input, ApproveWrite(grant), choice);
            if db.approvals[input.decisionId].requestedAt <= input.at && s.grantTtl > 0 && FreshGrant(db, choice.newId)
            then ApprovedRows(s, db, written, p, input, choice)
            else written == Next(db, SweepSelect(choice.now, ApproveReread))
  {
    hide Accounted, DatesOk, Consistent;
    var d := input.decisionId;
    ApprovalHasDecision(db, d, p);
    PendingHasNoGrant(db, d);
    var events := [ApprovalResolved(p, d, Approved, input.at, input.actor),
                   GrantIssued(p, d, choice.newId, input.at, input.at + s.grantTtl)];
    assert Copies(events) == [FromAudit(events[0]), FromAudit(events[1])];
    assert events == [events[0]] + [events[1]];
  }

  /** Every stored token is rebuilt from its payload, so a new grant id has a new token. */
  lemma PendingHasNoGrant(db: Database, d: Id)
    requires Consistent(db)
    ensures forall e :: e in db.grants ==> db.grants[e].tokenHash == HashOfToken(db.grants[e].payload)
    ensures d in db.grants ==> d in db.approvals && db.approvals[d].status == Approved
  {
    hide LedgerOk, ApprovalsOk, IdempotencyOk;
    forall e | e in db.grants ensures db.grants[e].tokenHash == HashOfToken(db.grants[e].payload) {
      assert GrantOk(db, e);
    }
    if d in db.grants {
      assert GrantOk(db, d);
    }
  }

  /** A second sweep at a time already swept finds nothing. */
  lemma SweptAlready(db: Database, first: Database, second: Database, p: Id, now: Instant, at: Instant)
    requires SweptTo(db, first, p, now) && SweptTo(first, second, p, at)
    ensures Sweep(second, p, now) == second
  {
    var due := DueApprovals(second, p, now);
    if due != [] {
      FirstIsMember(due);
      assert false;
    }
  }

  /** A refused writer that rereads a pending approval learns that it is pending. */
  lemma ApproveRecovers(s: Settings, db: Database, p: Id, input: Input, choice: Choice)
    requires Consistent(db) && input.ApproveInput?
    requires HasApproval(db, input.decisionId, p) && db.approvals[input.decisionId].status == Pending
    ensures var row := db.approvals[input.decisionId];
            && Step(s, db, p, input, ApproveReread, choice) == Next(db, ApproveRecover(Some(row)))
            && Step(s, db, p, input, ApproveRecover(Some(row)), choice) == Next(db, Done(ApprovalResolvedAs(Pending)))
  {
    hide Consistent;
    ApprovalHasDecision(db, input.decisionId, p);
  }

  lemma ApproveOnceLoaded(s: Settings, db: Database, p: Id, input: Input, grant: Grant, choice: Choice, n: nat)
    requires DbOk(s, db) && input.ApproveInput? && n >= 7
    requires var (first, d) := (Sweep(db, p, choice.now), input.decisionId);
             && HasApproval(db, d, p) && db.approvals[d].status == Pending && !Overdue(db, d, p, choice.now)
             && HasApproval(first, d, p) && first.approvals[d] == db.approvals[d]
             && GrantToInsert(s, first, p, input, grant)
    requires grant.payload.grantId == choice.newId && grant.payload.issuedAt == input.at
    ensures var first := Sweep(db, p, choice.now);
            var second := Sweep(first, p, input.at);
            ApprovalMeans(s, db, first, second, Alone(s, second, p, input, ApproveCheck(grant), choice, n), p, input, choice)
  {
    hide DbOk, Consistent, Step, Sweep, SweptTo, GrantToInsert, ApprovedRows;
    var (d, at) := (input.decisionId, input.at);
    var first := Sweep(db, p, choice.now);
    var second := Sweep(first, p, at);
    SweepMeans(db, p, choice.now);
    SweepMeans(first, p, at);
    SweepOk(s, db, p, choice.now);
    SweepOk(s, first, p, at);
    InsertAfterSweep(s, first, p, at, input, grant);
    SweptRow(first, second, p, at, d);
    SameWindow(db, first, second, p, choice.now, at, d);
    ApproveChecks(s, second, p, input, grant, choice);
    var checked := Step(s, second, p, input, ApproveCheck(grant), choice);
    assert Alone(s, second, p, input, ApproveCheck(grant), choice, n) == Alone(s, second, p, input, checked.pc, choice, n - 1);
    if checked.pc.Done? {
      AloneStops(s, second, p, input, ApprovalExpired, choice, n - 1);
    } else {
      assert Alone(s, second, p, input, ApproveVerify(grant), choice, n - 1) == Alone(s, second, p, input, ApproveWrite(grant), choice, n - 2);
      ApproveWriteAlone(s, db, p, input, grant, choice, n - 2);
    }
  }

  /** Neither sweep touches a pending approval that runs out later. */
  lemma SameWindow(db: Database, first: Database, second: Database, p: Id, now: Instant, at: Instant, d: Id)
    requires SweptTo(db, first, p, now) && SweptTo(first, second, p, at)
    requires HasApproval(db, d, p) && HasApproval(first, d, p) && first.approvals[d] == db.approvals[d]
    requires db.approvals[d].status == Pending
    ensures Overdue(first, d, p, at) <==> Overdue(db, d, p, at)
    ensures HasApproval(second, d, p)
    ensures Overdue(db, d, p, at) ==> second.approvals[d].status == Expired
    ensures !Overdue(db, d, p, at) ==> second.approvals[d] == db.approvals[d] && !Overdue(second, d, p, at)
    ensures second.grants == db.grants
  {
  }

  lemma ApproveWriteAlone(s: Settings, db: Database, p: Id, input: Input, grant: Grant, choice: Choice, n: nat)
    requires input.ApproveInput? && n >= 5
    requires var (first, d) := (Sweep(db, p, choice.now), input.decisionId);
             var second := Sweep(first, p, input.at);
             && HasApproval(db, d, p) && db.approvals[d].status == Pending
             && !Overdue(db, d, p, choice.now) && !Overdue(db, d, p, input.at)
             && SweptTo(db, first, p, choice.now) && SweptTo(first, second, p, input.at)
             && HasApproval(second, d, p) && second.approvals[d] == db.approvals[d] && second.grants == db.grants
             && !Overdue(second, d, p, input.at)
             && DbOk(s, second) && GrantToInsert(s, second, p, input, grant)
    requires grant.payload.grantId == choice.newId && grant.payload.issuedAt == input.at
    ensures var first := Sweep(db, p, choice.now);
            var second := Sweep(first, p, input.at);
            ApprovalMeans(s, db, first, second, Alone(s, second, p, input, ApproveWrite(grant), choice, n), p, input, choice)
  {
    hide Consistent, Accounted, DatesOk, Step, Sweep, SweptTo, GrantToInsert, Overdue;
    var first := Sweep(db, p, choice.now);
    var second := Sweep(first, p, input.at);
    ApproveWrites(s, second, p, input, grant, choice);
    var written := Step(s, second, p, input, ApproveWrite(grant), choice);
    assert Alone(s, second, p, input, ApproveWrite(grant), choice, n) == Alone(s, written.db, p, input, written.pc, choice, n - 1);
    if written.pc.Done? {
      AloneStops(s, written.db, p, input, written.pc.answer, choice, n - 1);
    } else {
      var row := second.approvals[input.decisionId];
      AloneSweeps(s, second, p, input, choice.now, ApproveReread, choice, n - 1);
      SweptAlready(db, first, second, p, choice.now, input.at);
      ApproveRecovers(s, second, p, input, choice);
      assert Alone(s, second, p, input, ApproveReread, choice, n - 3) == Alone(s, second, p, input, ApproveRecover(Some(row)), choice, n - 4);
      assert Alone(s, second, p, input, ApproveRecover(Some(row)), choice, n - 4)
          == Alone(s, second, p, input, Done(ApprovalResolvedAs(Pending)), choice, n - 5);
      AloneStops(s, second, p, input, ApprovalResolvedAs(Pending), choice, n - 5);
    }
  }

  /** What an approver answers when other calls came in between its reads: by the row that its
      own check or its reread finds. */
  lemma ApproveRaceAnswers(s: Settings, db: Database, p: Id, input: Input, grant: Grant, approval: Approval, choice: Choice)
    requires DbOk(s, db) && input.ApproveInput? && PcOk(s, db, p, input, ApproveCheck(grant))
    requires PcOk(s, db, p, input, ApproveRecover(Some(approval)))
    ensures var (d, checked) := (input.decisionId, Step(s, db, p, input, ApproveCheck(grant), choice));
            && checked.db == db && HasApproval(db, d, p)
            && checked.pc == match db.approvals[d].status
                             case Pending => ApproveVerify(grant)
                             case Approved => ApproveStored(db.approvals[d])
                             case Rejected => Done(ApprovalResolvedAs(Rejected))
                             case Expired => Done(ApprovalExpired)
    ensures var (d, recovered) := (input.decisionId, Step(s, db, p, input, ApproveRecover(Some(approval)), choice));
            && recovered.db == db
            && recovered.pc == Done(if approval.status == Expired then ApprovalExpired
                                    else if approval.status == Approved && d in db.grants && db.grants[d].status == Active
                                            && input.at < db.grants[d].payload.expiresAt then Granted(approval, db.grants[d])
                                    else ApprovalResolvedAs(approval.status))
  {
    hide Accounted, DatesOk, Consistent;
    ApprovalHasDecision(db, input.decisionId, p);
  }

  // ---------------------------------------------------------------- authorization

  /** The decision, the approval exactly when the verdict asks for one, the key, and their
      events; nothing else changed. */
  predicate SavedRows(s: Settings, db: Database, next: Next, p: Id, input: Input, choice: Choice)
    requires input.AuthorizeInput? && choice.evaluation.Some?
  {
    var d := choice.newId;
    var asks := choice.evaluation.value.outcome == RequireApproval;
    && next.pc.Done? && next.pc.answer.Authorized? && Carries(next.pc.answer.authorization, p, input, choice)
    && next.db.projects == db.projects && next.db.grants == db.grants && next.db.audit == db.audit
    && next.db.ledger.decisions == db.ledger.decisions[d := L.DecisionRow(p, Some(next.pc.answer.authorization.body))]
    && next.db.approvals == (if asks then db.approvals[d := Approval(Pending, choice.now, Some(choice.now + s.approvalTtl), None, None)]
                             else db.approvals)
    && next.db.idempotency == (if input.key.None? then db.idempotency
                               else db.idempotency[(p, input.key.value) := IdempotencyRecord(FingerprintOf(input.request), d)])
    && next.db.outbox == db.outbox + (if asks then [AuthorizationCreated(p, d), ApprovalRequested(p, d)] else [AuthorizationCreated(p, d)])
  }

  /** A save goes through exactly when its id is new, its key is free and an approval it needs
      has a lifetime. */
  lemma SaveAnswers(s: Settings, db: Database, p: Id, input: Input, choice: Choice)
    requires Consistent(db) && p in db.projects && input.AuthorizeInput? && choice.evaluation.Some?
    ensures var next := Step(s, db, p, input, AuthorizeSave, choice);
            if choice.newId !in db.ledger.decisions && !KeyHeld(db, p, input)
               && (choice.evaluation.value.outcome == RequireApproval ==> s.approvalTtl > 0)
            then next.pc.Done? && SavedRows(s, db, next, p, input, choice) && W.Sound(next.db.ledger)
            else next == Next(db, if input.key.None? then Done(DatabaseError) else AuthorizeLookup(true))
  {
    hide W.Append, W.Sound, Consistent;
    LedgerIsSound(db);
    NewIdIsNew(db, choice.newId);
    var authorization := Authorization(choice.newId, p, choice.evaluation.value.(evaluatedAt := choice.now, request := input.request));
    W.AppendKeepsSound(db.ledger, authorization);
  }

  /** An id without a decision has no approval and no key. */
  lemma NewIdIsNew(db: Database, d: Id)
    requires Consistent(db)
    ensures d !in db.ledger.decisions ==> d !in db.approvals && forall k :: k in db.idempotency ==> db.idempotency[k].decisionId != d
  {
    hide LedgerOk, GrantsOk, ApprovalOk;
  }

  predicate KeyHeld(db: Database, p: Id, input: Input)
    requires input.AuthorizeInput?
  {
    input.key.Some? && (p, input.key.value) in db.idempotency
  }

  /** What an authorization that nobody interrupts answers and leaves. */
  predicate AuthorizationMeans(s: Settings, db: Database, last: Next, p: Id, input: Input, choice: Choice)
    requires input.AuthorizeInput?
  {
    if KeyHeld(db, p, input) then
      var record := db.idempotency[(p, input.key.value)];
      if record.fingerprint != FingerprintOf(input.request) then last == Next(db, Done(KeyConflict))
      else
        && record.decisionId in db.ledger.decisions && db.ledger.decisions[record.decisionId].body.Some?
        && last == Next(db, Done(Authorized(Authorization(record.decisionId, p, db.ledger.decisions[record.decisionId].body.value))))
    else if choice.evaluation.None? then last == Next(db, Done(InvalidContext))
    else if choice.newId in db.ledger.decisions || (choice.evaluation.value.outcome == RequireApproval && s.approvalTtl <= 0)
    then last == Next(db, Done(DatabaseError))
    else SavedRows(s, db, last, p, input, choice)
  }

  lemma AuthorizeAnswers(s: Settings, db: Database, p: Id, input: Input, choice: Choice, n: nat)
    requires Consistent(db) && p in db.projects && input.AuthorizeInput? && n >= 4
    ensures AuthorizationMeans(s, db, Alone(s, db, p, input, Entry(p, input, choice.now), choice, n), p, input, choice)
  {
    hide Consistent, Step, SavedRows, Carries;
    if input.key.None? {
      SaveAlone(s, db, p, input, choice, n);
    } else {
      LookupAnswers(s, db, p, input, choice);
      var found := Step(s, db, p, input, AuthorizeLookup(false), choice);
      assert Alone(s, db, p, input, AuthorizeLookup(false), choice, n) == Alone(s, db, p, input, found.pc, choice, n - 1);
      if found.pc.Done? {
        AloneStops(s, db, p, input, found.pc.answer, choice, n - 1);
      } else if found.pc == AuthorizeSave {
        SaveAlone(s, db, p, input, choice, n - 1);
      } else {
        var fetched := Step(s, db, p, input, found.pc, choice);
        assert Alone(s, db, p, input, found.pc, choice, n - 1) == Alone(s, db, p, input, fetched.pc, choice, n - 2);
        AloneStops(s, db, p, input, fetched.pc.answer, choice, n - 2);
      }
    }
  }

  /** The lookup of a key and the read of the decision it names. */
  lemma LookupAnswers(s: Settings, db: Database, p: Id, input: Input, choice: Choice)
    requires Consistent(db) && input.AuthorizeInput? && input.key.Some?
    ensures var (found, again) := (Step(s, db, p, input, AuthorizeLookup(false), choice), Step(s, db, p, input, AuthorizeLookup(true), choice));
            if !KeyHeld(db, p, input) then found == Next(db, AuthorizeSave) && again == Next(db, Done(DatabaseError))
            else found == again && found.db == db
                 && if found.pc.Done? then AuthorizationMeans(s, db, found, p, input, choice)
                    else var fetched := Step(s, db, p, input, found.pc, choice);
                         found.pc != AuthorizeSave && fetched.db == db && fetched.pc.Done? && AuthorizationMeans(s, db, fetched, p, input, choice)
  {
    hide W.Sound, ApprovalsOk, GrantsOk;
  }

  lemma SaveAlone(s: Settings, db: Database, p: Id, input: Input, choice: Choice, n: nat)
    requires Consistent(db) && p in db.projects && input.AuthorizeInput? && !KeyHeld(db, p, input) && n >= 2
    ensures AuthorizationMeans(s, db, Alone(s, db, p, input, AuthorizeSave, choice, n), p, input, choice)
  {
    hide Consistent, Step, SavedRows, Carries, W.Sound;
    SaveCarriesVerdict(s, db, p, input, choice);
    if choice.evaluation.Some? {
      SaveAnswers(s, db, p, input, choice);
    }
    var next := Step(s, db, p, input, AuthorizeSave, choice);
    assert Alone(s, db, p, input, AuthorizeSave, choice, n) == Alone(s, next.db, p, input, next.pc, choice, n - 1);
    if next.pc.Done? {
      AloneStops(s, next.db, p, input, next.pc.answer, choice, n - 1);
    } else {
      LookupAnswers(s, db, p, input, choice);
      assert Alone(s, db, p, input, AuthorizeLookup(true), choice, n - 1) == Alone(s, db, p, input, Done(DatabaseError), choice, n - 2);
      AloneStops(s, db, p, input, DatabaseError, choice, n - 2);
    }
  }
}
