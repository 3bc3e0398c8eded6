/** app/services/authorization.py, approvals.py and execution_grants.py: the protocol as a
    state machine. A call is a program counter; every step is one read or one write
    transaction, so any number of calls interleave between their reads and their writes. */
module Protocol {
  import opened Ordering
  import opened Integrity
  import opened Store
  import L = Ledger

  datatype Settings = Settings(approvalTtl: int, grantTtl: int)

  datatype Input =
    | AuthorizeInput(request: Request, key: Option<string>)
    | ApproveInput(decisionId: Id, actor: string, at: Instant)
    | RejectInput(decisionId: Id, actor: string, at: Instant)
    // token is the payload the parser accepted, None when it refused
    | ConsumeInput(token: Option<Payload>, presented: Request, actor: string, at: Instant)
    | SweepInput

  datatype Pc =
    | SweepSelect(at: Instant, next: Pc)
    | SweepWrite(at: Instant, due: seq<Id>, next: Pc)
    | AuthorizeLookup(recovering: bool)
    | AuthorizeFetch(decisionId: Id)
    | AuthorizeSave
    | ApproveRead
    | ApproveExisting(approval: Approval)
    | ApproveLoad
    | ApproveCheck(grant: Grant)
    | ApproveStored(approval: Approval)
    | ApproveVerify(grant: Grant)
    | ApproveWrite(grant: Grant)
    | ApproveReread
    | ApproveRecover(reread: Option<Approval>)
    | RejectRead
    | RejectWrite
    | ConsumeDecision
    | ConsumeRead
    | ConsumeLapse
    | ConsumeWrite
    | Done(answer: Answer)

  /** RuntimeErrors of the code. */
  datatype Defect =
    | MissingDecision | ApprovedWithoutGrant | InvalidAuthorization | NotRegenerable
    | AtomicUpdateFailed | LapseFailed

  datatype Answer =
    | Authorized(authorization: Authorization)
    | Granted(approved: Approval, issued: Grant)
    | RejectedAs(approval: Approval)
    | ConsumedAs(grant: Grant)
    | Swept
    | KeyConflict | InvalidContext | ApprovalNotFound | ApprovalExpired | ApprovalResolvedAs(status: ApprovalStatus)
    | InvalidGrant | GrantMismatch | GrantAlreadyConsumed | GrantExpired
    | DatabaseError | ValidationFailed
    | Crash(defect: Defect)

  /** What the environment supplies to a step: the clock, a UUID, and the policies' verdict. */
  datatype Choice = Choice(now: Instant, newId: Id, evaluation: Option<Body>)

  datatype Next = Next(db: Database, pc: Pc)

  // ---------------------------------------------------------------- authorize_request

  function IdempotencyOf(input: Input): Option<(string, Fingerprint)>
    requires input.AuthorizeInput?
  {
    match input.key
    case None => None
    case Some(key) => Some((key, FingerprintOf(input.request)))
  }

  function StepAuthorize(s: Settings, db: Database, p: Id, input: Input, pc: Pc, choice: Choice): Next
    requires input.AuthorizeInput?
  {
    match pc
    case AuthorizeLookup(recovering) =>
      if input.key.None? || (p, input.key.value) !in db.idempotency then
        Next(db, if recovering then Done(DatabaseError) else AuthorizeSave)
      else
        var record := db.idempotency[(p, input.key.value)];
        Next(db, if record.fingerprint != FingerprintOf(input.request) then Done(KeyConflict)
                 else AuthorizeFetch(record.decisionId))
    case AuthorizeFetch(d) =>
      (match GetDecision(db, d, p)
       case None => Next(db, Done(Crash(MissingDecision)))
       case Some(authorization) => Next(db, Done(Authorized(authorization))))
    case AuthorizeSave =>
      if choice.evaluation.None? then Next(db, Done(InvalidContext))
      else
        var authorization := Authorization(choice.newId, p,
                               choice.evaluation.value.(evaluatedAt := choice.now, request := input.request));
        var approval := if authorization.body.outcome == RequireApproval
                        then Some(Approval(Pending, choice.now, Some(choice.now + s.approvalTtl), None, None)) else None;
        (match SaveAuthorization(db, authorization, approval, IdempotencyOf(input))
         case Some(u) => Next(u, Done(Authorized(authorization)))
         case None => Next(db, if input.key.None? then Done(DatabaseError) else AuthorizeLookup(true)))
    case _ => Next(db, pc)
  }

  // ---------------------------------------------------------------- approve_approval_request

  function FailedApproval(status: ApprovalStatus): Answer {
    if status == Expired then ApprovalExpired else ApprovalResolvedAs(status)
  }

  /** The token is rebuilt from the persisted grant and compared with its stored hash. */
  function Regenerate(approval: Approval, grant: Grant): Pc {
    if grant.tokenHash != HashOfToken(grant.payload) then Done(Crash(NotRegenerable))
    else Done(Granted(approval, grant))
  }

  function NewGrant(s: Settings, authorization: Authorization, newId: Id, at: Instant): Grant {
    var payload := Payload(newId, authorization.decisionId, authorization.projectId,
                           FingerprintOf(authorization.body.request), at, at + s.grantTtl);
    Grant(payload, Active, HashOfToken(payload), None, None)
  }

  predicate Usable(grant: Grant, at: Instant) {
    grant.status == Active && grant.payload.expiresAt > at
  }

  function StepApprove(s: Settings, db: Database, p: Id, input: Input, pc: Pc, choice: Choice): Next
    requires input.ApproveInput?
  {
    var d := input.decisionId;
    match pc
    case ApproveRead =>
      Next(db, match GetApproval(db, d, p)
               case None => Done(ApprovalNotFound)
               case Some(approval) =>
                 if approval.status == Approved then ApproveExisting(approval)
                 else if approval.status != Pending then Done(FailedApproval(approval.status))
                 else ApproveLoad)
    case ApproveExisting(approval) =>
      Next(db, match GetGrant(db, d, p)
               case None => Done(ApprovalResolvedAs(Approved))
               case Some(grant) => if Usable(grant, input.at) then Done(Granted(approval, grant))
                                   else Done(ApprovalResolvedAs(Approved)))
    case ApproveLoad =>
      Next(db, match GetDecision(db, d, p)
               case None => Done(Crash(MissingDecision))
               case Some(authorization) =>
                 SweepSelect(input.at, ApproveCheck(NewGrant(s, authorization, choice.newId, input.at))))
    case ApproveCheck(grant) =>
      Next(db, match GetApproval(db, d, p)
               case None => Done(ApprovalNotFound)
               case Some(previous) =>
                 if previous.status == Approved then ApproveStored(previous)
                 else if previous.status != Pending then Done(FailedApproval(previous.status))
                 else ApproveVerify(grant))
    case ApproveStored(previous) =>
      Next(db, match GetGrant(db, d, p)
               case None => Done(Crash(ApprovedWithoutGrant))
               case Some(existing) => Regenerate(previous, existing))
    case ApproveVerify(grant) =>
      Next(db, match GetDecision(db, d, p)
               case None => Done(Crash(InvalidAuthorization))
               case Some(authorization) =>
                 if authorization.body.outcome != RequireApproval then Done(Crash(InvalidAuthorization))
                 else ApproveWrite(grant))
    case ApproveWrite(grant) =>
      (match Approve(db, grant, input.actor, input.at)
       case Ok(u) => if d in u.approvals then Next(u, Regenerate(u.approvals[d], grant)) else Next(u, Done(ApprovalNotFound))
       case Err(IntegrityConflict) => Next(db, SweepSelect(choice.now, ApproveReread))
       case Err(ResolveFailed(reason)) => Next(db, Done(ResolveAnswer(reason))))
    case ApproveReread => Next(db, ApproveRecover(GetApproval(db, d, p)))
    case ApproveRecover(reread) =>
      Next(db, match reread
               case None => Done(DatabaseError)
               case Some(approval) =>
                 if approval.status == Expired then Done(ApprovalExpired)
                 else
                   match GetGrant(db, d, p)
                   case None => Done(ApprovalResolvedAs(approval.status))
                   case Some(grant) =>
                     if approval.status == Approved && Usable(grant, input.at) then Regenerate(approval, grant)
                     else Done(ApprovalResolvedAs(approval.status)))
    case _ => Next(db, pc)
  }

  function ResolveAnswer(reason: ResolveError): Answer {
    match reason
    case NotFound => ApprovalNotFound
    case TooLate => ApprovalExpired
    case AlreadyResolved(status) => ApprovalResolvedAs(status)
    case Refused => ValidationFailed
  }

  // ---------------------------------------------------------------- resolve_approval_request

  function StepReject(db: Database, p: Id, input: Input, pc: Pc): Next
    requires input.RejectInput?
  {
    var d := input.decisionId;
    match pc
    case RejectRead =>
      var previous := GetApproval(db, d, p);
      Next(db, if previous.Some? && previous.value.status == Expired then Done(ApprovalExpired) else RejectWrite)
    case RejectWrite =>
      (match Reject(db, d, p, input.actor, input.at)
       case Err(reason) => Next(db, Done(ResolveAnswer(reason)))
       case Ok(u) => if d in u.approvals then Next(u, Done(RejectedAs(u.approvals[d]))) else Next(u, Done(ApprovalNotFound)))
    case _ => Next(db, pc)
  }

  // ---------------------------------------------------------------- consume_execution_grant_request

  function StatusAnswer(status: GrantStatus): Answer {
    match status
    case Consumed => GrantAlreadyConsumed
    case Lapsed => GrantExpired
    case Active => Crash(AtomicUpdateFailed)
  }

  function StepConsume(db: Database, p: Id, input: Input, pc: Pc): Next
    requires input.ConsumeInput? && input.token.Some?
  {
    var payload := input.token.value;
    match pc
    case ConsumeDecision =>
      Next(db, match GetDecision(db, payload.decisionId, p)
               case None => Done(InvalidGrant)
               case Some(authorization) =>
                 if FingerprintOf(authorization.body.request) != payload.fingerprint then Done(InvalidGrant)
                 else ConsumeRead)
    case ConsumeRead =>
      Next(db, match GetGrant(db, payload.decisionId, p)
               case None => Done(InvalidGrant)
               case Some(current) =>
                 if current.tokenHash != HashOfToken(payload) || current.payload != payload then Done(InvalidGrant)
                 else if current.payload.fingerprint != FingerprintOf(input.presented) then Done(GrantMismatch)
                 else if current.status != Active then Done(StatusAnswer(current.status))
                 else if current.payload.expiresAt <= input.at then ConsumeLapse
                 else ConsumeWrite)
    case ConsumeLapse =>
      (match LapseGrant(db, payload, input.at)
       case None => Next(db, Done(Crash(LapseFailed)))
       case Some(u) => Next(u, Done(GrantExpired)))
    case ConsumeWrite =>
      (match Consume(db, payload, HashOfToken(payload), input.actor, input.at)
       case Some(u) => if payload.decisionId in u.grants then Next(u, Done(ConsumedAs(u.grants[payload.decisionId])))
                       else Next(u, Done(InvalidGrant))
       case None =>
         (match GetGrant(db, payload.decisionId, p)
          case None => Next(db, Done(InvalidGrant))
          case Some(latest) => Next(db, Done(StatusAnswer(latest.status)))))
    case _ => Next(db, pc)
  }

  // ---------------------------------------------------------------- one step of any call

  function Step(s: Settings, db: Database, p: Id, input: Input, pc: Pc, choice: Choice): Next {
    match pc
    case SweepSelect(at, next) => Next(db, SweepWrite(at, DueApprovals(db, p, at), next))
    case SweepWrite(at, due, next) => Next(ExpireDue(db, p, at, due), next)
    case Done(_) => Next(db, pc)
    case _ =>
      match input
      case AuthorizeInput(_, _) => StepAuthorize(s, db, p, input, pc, choice)
      case ApproveInput(_, _, _) => StepApprove(s, db, p, input, pc, choice)
      case RejectInput(_, _, _) => StepReject(db, p, input, pc)
      case ConsumeInput(token, _, _, _) => if token.None? then Next(db, pc) else StepConsume(db, p, input, pc)
      case SweepInput => Next(db, pc)
  }

  /** Where a call starts; now is the time of its first sweep. */
  function Entry(p: Id, input: Input, now: Instant): Pc {
    match input
    case AuthorizeInput(_, key) => if key.None? then AuthorizeSave else AuthorizeLookup(false)
    case ApproveInput(_, _, _) => SweepSelect(now, ApproveRead)
    case RejectInput(_, _, at) => SweepSelect(at, RejectRead)
    case ConsumeInput(token, _, _, _) =>
      if token.None? || token.value.projectId != p then Done(InvalidGrant) else ConsumeDecision
    case SweepInput => SweepSelect(now, Done(Swept))
  }

  // ---------------------------------------------------------------- configurations and runs

  datatype Call = Call(project: Id, input: Input, pc: Pc)

  /** One committed save, for the record. */
  datatype Saved = Saved(project: Id, key: Option<string>, decisionId: Id)

  /** consumers and saves are history variables: who consumed a decision's grant, and which
      call's save persisted which decision. No step reads them. */
  datatype Config = Config(settings: Settings, db: Database, calls: map<Id, Call>,
                           consumers: map<Id, Id>, saves: seq<Saved>)

  datatype Action =
    | Begin(call: Id, project: Id, input: Input, now: Instant)
    | Advance(call: Id, choice: Choice)
    | Administer(project: Id)

  function Apply(c: Config, action: Action): Config {
    match action
    case Begin(id, p, input, now) =>
      if id in c.calls || p !in c.db.projects then c
      else c.(calls := c.calls[id := Call(p, input, Entry(p, input, now))])
    case Administer(p) => if p in c.db.projects then c.(db := Record(c.db, OtherChange(p))) else c
    case Advance(id, choice) =>
      if id !in c.calls then c
      else
        var call := c.calls[id];
        var next := Step(c.settings, c.db, call.project, call.input, call.pc, choice);
        var moved := c.(db := next.db, calls := c.calls[id := call.(pc := next.pc)]);
        if call.pc.ConsumeWrite? && next.pc.Done? && next.pc.answer.ConsumedAs? then
          moved.(consumers := c.consumers[next.pc.answer.grant.payload.decisionId := id])
        else if call.pc.AuthorizeSave? && call.input.AuthorizeInput? && next.pc.Done? && next.pc.answer.Authorized? then
          moved.(saves := c.saves + [Saved(call.project, call.input.key, next.pc.answer.authorization.decisionId)])
        else moved
  }

  function Run(c: Config, actions: seq<Action>): Config {
    if actions == [] then c
    else Apply(Run(c, actions[..|actions| - 1]), actions[|actions| - 1])
  }

  /** The database after initialisation, with some projects and nothing else. */
  function Initially(settings: Settings, projects: set<Id>): Config {
    Config(settings, Database(projects, L.Tables(map[], map[]), map[], map[], map[], [], []), map[], map[], [])
  }
}
