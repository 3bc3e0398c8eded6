/** Audit and outbox conservation (app/evidence_store.py): the audit log alone reproduces
    every approval and grant, and the outbox misses nothing. */
module Accounting {
  import opened Ordering
  import opened Integrity
  import opened Store
  import opened StoreInvariants
  import L = Ledger
  import W = LedgerWrites

  // ---------------------------------------------------------------- replay

  /** The columns of a grant that the audit log carries. */
  datatype GrantView = GrantView(grantId: Id, issuedAt: Instant, expiresAt: Instant, status: GrantStatus,
                                 consumedAt: Option<Instant>, consumedBy: Option<string>)

  datatype View = View(approvals: map<Id, Approval>, grants: map<Id, GrantView>)

  function ViewOf(db: Database): View {
    View(db.approvals, map d | d in db.grants :: ViewGrant(db.grants[d]))
  }

  function ViewGrant(grant: Grant): GrantView {
    GrantView(grant.payload.grantId, grant.payload.issuedAt, grant.payload.expiresAt, grant.status,
              grant.consumedAt, grant.consumedBy)
  }

  function Initial(approval: Approval): Approval {
    Approval(Pending, approval.requestedAt, approval.expiresAt, None, None)
  }

  /** Where the replay starts: every approval as it was requested, and no grant. */
  function Start(db: Database): View {
    View(map d | d in db.approvals :: Initial(db.approvals[d]), map[])
  }

  predicate PendingIn(v: View, d: Id) {
    d in v.approvals && v.approvals[d].status == Pending
  }

  predicate ActiveIn(v: View, d: Id) {
    d in v.grants && v.grants[d].status == Active
  }

  function Resolved(v: View, d: Id, status: ApprovalStatus, at: Instant, actor: string): View
    requires d in v.approvals
  {
    v.(approvals := v.approvals[d := v.approvals[d].(status := status, resolvedAt := Some(at), resolvedBy := Some(actor))])
  }

  /** One event is one transition; None when the event does not fit the state, so a log
      with a missing or a repeated transition cannot be replayed. */
  function ReplayEvent(v: View, event: AuditEvent): Option<View> {
    match event
    case ApprovalResolved(_, d, resolution, at, actor) =>
      if PendingIn(v, d) && resolution in {Approved, Rejected} then Some(Resolved(v, d, resolution, at, actor)) else None
    case ApprovalLapsed(_, d, at) =>
      if PendingIn(v, d) then Some(Resolved(v, d, Expired, at, EXPIRATION_ACTOR)) else None
    case GrantIssued(_, d, grantId, issuedAt, expiresAt) =>
      if d in v.approvals && v.approvals[d].status == Approved && d !in v.grants
      then Some(v.(grants := v.grants[d := GrantView(grantId, issuedAt, expiresAt, Active, None, None)]))
      else None
    case GrantConsumed(_, d, at, actor) =>
      if ActiveIn(v, d)
      then Some(v.(grants := v.grants[d := v.grants[d].(status := Consumed, consumedAt := Some(at), consumedBy := Some(actor))]))
      else None
    case GrantLapsed(_, d, at) =>
      if ActiveIn(v, d) then Some(v.(grants := v.grants[d := v.grants[d].(status := Lapsed)])) else None
    case OtherChange(_) => Some(v)
  }

  function Replay(v: View, events: seq<AuditEvent>): Option<View> {
    if events == [] then Some(v)
    else
      match Replay(v, events[..|events| - 1])
      case None => None
      case Some(w) => ReplayEvent(w, events[|events| - 1])
  }

  ghost predicate Replayable(db: Database) {
    Replay(Start(db), db.audit) == Some(ViewOf(db))
  }

  lemma ReplayOneMore(v: View, events: seq<AuditEvent>, event: AuditEvent, w: View)
    requires Replay(v, events) == Some(w)
    ensures Replay(v, events + [event]) == ReplayEvent(w, event)
  {
    assert (events + [event])[..|events|] == events;
  }

  /** A request that arrives later does not disturb the replay of what came before. */
  lemma {:induction false} ReplayWithLaterRequest(v: View, events: seq<AuditEvent>, d: Id, approval: Approval)
    requires d !in v.approvals && Replay(v, events).Some?
    ensures Replay(v, events).value.approvals.Keys == v.approvals.Keys
    ensures var w := Replay(v, events).value;
            Replay(v.(approvals := v.approvals[d := approval]), events)
            == Some(w.(approvals := w.approvals[d := approval]))
    decreases |events|
  {
    if events != [] {
      var n := |events| - 1;
      ReplayWithLaterRequest(v, events[..n], d, approval);
      var w := Replay(v, events[..n]).value;
      EventWithLaterRequest(w, events[n], d, approval);
    }
  }

  lemma EventWithLaterRequest(w: View, event: AuditEvent, d: Id, approval: Approval)
    requires d !in w.approvals && ReplayEvent(w, event).Some?
    ensures ReplayEvent(w, event).value.approvals.Keys == w.approvals.Keys
    ensures var x := ReplayEvent(w, event).value;
            ReplayEvent(w.(approvals := w.approvals[d := approval]), event)
            == Some(x.(approvals := x.approvals[d := approval]))
  {
    var x := ReplayEvent(w, event).value;
    var later := w.(approvals := w.approvals[d := approval]);
    if event.ApprovalResolved? || event.ApprovalLapsed? {
      var e := event.decision;
      assert later.approvals[e := x.approvals[e]] == x.approvals[d := approval];
    }
  }

  // ---------------------------------------------------------------- the outbox

  function AuditPart(outbox: seq<Event>): seq<AuditEvent> {
    if outbox == [] then []
    else
      AuditPart(outbox[..|outbox| - 1])
      + if outbox[|outbox| - 1].FromAudit? then [outbox[|outbox| - 1].event] else []
  }

  function EventProject(event: Event): Id {
    match event
    case FromAudit(e) => e.project
    case AuthorizationCreated(p, _) => p
    case ApprovalRequested(p, _) => p
  }

  function OutboxCount(outbox: seq<Event>, p: Id): nat {
    if outbox == [] then 0
    else OutboxCount(outbox[..|outbox| - 1], p) + if EventProject(outbox[|outbox| - 1]) == p then 1 else 0
  }

  function AuditCount(audit: seq<AuditEvent>, p: Id): nat {
    if audit == [] then 0
    else AuditCount(audit[..|audit| - 1], p) + if audit[|audit| - 1].project == p then 1 else 0
  }

  function ApprovalIds(db: Database, p: Id): set<Id> {
    set d | d in db.approvals && InProject(db, d, p)
  }

  ghost predicate Balanced(db: Database, p: Id) {
    OutboxCount(db.outbox, p) == AuditCount(db.audit, p) + |L.DecisionIds(db.ledger, p)| + |ApprovalIds(db, p)|
  }

  /** Conservation: the log replays to the tables, the outbox holds the audit log in order,
      and per project it has one event per audit event, decision and approval. */
  ghost predicate Accounted(db: Database) {
    && Replayable(db)
    && AuditPart(db.outbox) == db.audit
    && forall p :: p in db.projects ==> Balanced(db, p)
  }

  lemma OutboxOneMore(outbox: seq<Event>, event: Event)
    ensures AuditPart(outbox + [event]) == AuditPart(outbox) + if event.FromAudit? then [event.event] else []
    ensures forall p :: OutboxCount(outbox + [event], p) == OutboxCount(outbox, p) + if EventProject(event) == p then 1 else 0
  {
    assert (outbox + [event])[..|outbox|] == outbox;
  }

  lemma AuditOneMore(audit: seq<AuditEvent>, event: AuditEvent)
    ensures forall p :: AuditCount(audit + [event], p) == AuditCount(audit, p) + if event.project == p then 1 else 0
  {
    assert (audit + [event])[..|audit|] == audit;
  }

  /** Recording the event of a change keeps the books, if the event describes the change. */
  lemma RecordKeepsBooks(db: Database, changed: Database, event: AuditEvent)
    requires Accounted(db)
    requires changed == db.(approvals := changed.approvals, grants := changed.grants)
    requires changed.approvals.Keys == db.approvals.Keys && Start(changed) == Start(db)
    requires ReplayEvent(ViewOf(db), event) == Some(ViewOf(changed))
    ensures Accounted(Record(changed, event))
  {
    var u := Record(changed, event);
    ReplayOneMore(Start(db), db.audit, event, ViewOf(db));
    assert Start(u) == Start(db) && ViewOf(u) == ViewOf(changed);
    OutboxOneMore(db.outbox, FromAudit(event));
    AuditOneMore(db.audit, event);
    forall p | p in u.projects ensures Balanced(u, p) {
      assert Balanced(db, p);
      assert ApprovalIds(u, p) == ApprovalIds(db, p);
    }
  }

  lemma ExpireOneKeepsBooks(db: Database, p: Id, at: Instant, d: Id)
    requires Consistent(db) && Accounted(db)
    ensures Accounted(ExpireOne(db, p, at, d))
  {
    hide Accounted, LedgerOk, GrantsOk, IdempotencyOk;
    if d in db.approvals && DueNow(db.approvals[d], at) {
      var changed := db.(approvals := db.approvals[d := Lapse(db.approvals[d], at)]);
      SameStart(db, changed, d);
      RecordKeepsBooks(db, changed, ApprovalLapsed(p, d, at));
    }
  }

  lemma SameStart(db: Database, changed: Database, d: Id)
    requires d in db.approvals && d in changed.approvals && changed.approvals == db.approvals[d := changed.approvals[d]]
    requires Initial(changed.approvals[d]) == Initial(db.approvals[d])
    ensures Start(changed) == Start(db) && changed.approvals.Keys == db.approvals.Keys
  {
    assert Start(changed).approvals == Start(db).approvals;
  }

  lemma {:induction false} ExpireDueKeepsBooks(db: Database, p: Id, at: Instant, due: seq<Id>)
    requires Consistent(db) && Accounted(db)
    ensures Accounted(ExpireDue(db, p, at, due))
    decreases |due|
  {
    hide Accounted, Consistent;
    if due != [] {
      var n := |due| - 1;
      ExpireDueKeepsBooks(db, p, at, due[..n]);
      ExpireDueKeeps(db, p, at, due[..n]);
      ExpireOneKeepsBooks(ExpireDue(db, p, at, due[..n]), p, at, due[n]);
    }
  }

  lemma RejectKeepsBooks(db: Database, d: Id, p: Id, actor: string, at: Instant)
    requires Accounted(db) && Reject(db, d, p, actor, at).Ok?
    ensures Accounted(Reject(db, d, p, actor, at).value)
  {
    hide Accounted;
    var changed := Resolve(db, d, p, Rejected, actor, at).value;
    assert Initial(changed.approvals[d]) == Initial(db.approvals[d]);
    SameStart(db, changed, d);
    RecordKeepsBooks(db, changed, ApprovalResolved(p, d, Rejected, at, actor));
  }

  lemma ApproveKeepsBooks(db: Database, grant: Grant, actor: string, at: Instant)
    requires Accounted(db) && Approve(db, grant, actor, at).Ok?
    ensures Accounted(Approve(db, grant, actor, at).value)
  {
    hide Accounted;
    var d, p := grant.payload.decisionId, grant.payload.projectId;
    var inserted := db.(grants := db.grants[d := grant]);
    var resolved := Resolve(inserted, d, p, Approved, actor, at).value;
    // the log records the resolution first, then the grant
    var approved := db.(approvals := resolved.approvals);
    SameStart(db, approved, d);
    RecordKeepsBooks(db, approved, ApprovalResolved(p, d, Approved, at, actor));
    var logged := Record(approved, ApprovalResolved(p, d, Approved, at, actor));
    var event := GrantIssued(p, d, grant.payload.grantId, grant.payload.issuedAt, grant.payload.expiresAt);
    var issued := logged.(grants := inserted.grants);
    assert ViewOf(issued).grants == ViewOf(logged).grants[d := ViewGrant(grant)];
    RecordKeepsBooks(logged, issued, event);
    assert Record(issued, event) == Approve(db, grant, actor, at).value;
  }

  lemma ConsumeKeepsBooks(db: Database, payload: Payload, tokenHash: TokenHash, actor: string, at: Instant)
    requires Accounted(db) && Consume(db, payload, tokenHash, actor, at).Some?
    ensures Accounted(Consume(db, payload, tokenHash, actor, at).value)
  {
    hide Accounted;
    var d := payload.decisionId;
    var grant := db.grants[d].(status := Consumed, consumedAt := Some(at), consumedBy := Some(actor));
    var changed := db.(grants := db.grants[d := grant]);
    assert ViewOf(changed).grants == ViewOf(db).grants[d := ViewGrant(grant)];
    RecordKeepsBooks(db, changed, GrantConsumed(payload.projectId, d, at, actor));
  }

  lemma LapseGrantKeepsBooks(db: Database, payload: Payload, at: Instant)
    requires Accounted(db) && LapseGrant(db, payload, at).Some?
    ensures Accounted(LapseGrant(db, payload, at).value)
  {
    hide Accounted;
    var d := payload.decisionId;
    var grant := db.grants[d].(status := Lapsed);
    var changed := db.(grants := db.grants[d := grant]);
    assert ViewOf(changed).grants == ViewOf(db).grants[d := ViewGrant(grant)];
    RecordKeepsBooks(db, changed, GrantLapsed(payload.projectId, d, at));
  }

  lemma OtherChangeKeepsBooks(db: Database, p: Id)
    requires Accounted(db)
    ensures Accounted(Record(db, OtherChange(p)))
  {
    hide Accounted;
    RecordKeepsBooks(db, db, OtherChange(p));
  }

  lemma SaveKeepsBooks(db: Database, authorization: Authorization, approval: Option<Approval>,
                       idempotency: Option<(string, Fingerprint)>)
    requires Consistent(db) && Accounted(db) && ServiceAuthorization(db, authorization, approval, idempotency)
    requires SaveAuthorization(db, authorization, approval, idempotency).Some?
    ensures Accounted(SaveAuthorization(db, authorization, approval, idempotency).value)
  {
    var u := SaveAuthorization(db, authorization, approval, idempotency).value;
    SavedReplay(db, u, authorization, approval, idempotency);
    SavedOutbox(db, u, authorization, approval, idempotency);
  }

  lemma SavedReplay(db: Database, u: Database, authorization: Authorization, approval: Option<Approval>,
                    idempotency: Option<(string, Fingerprint)>)
    requires Accounted(db) && ServiceAuthorization(db, authorization, approval, idempotency)
    requires SaveAuthorization(db, authorization, approval, idempotency) == Some(u)
    ensures Replayable(u)
  {
    hide W.Append;
    if approval.Some? {
      var d := authorization.decisionId;
      ReplayWithLaterRequest(Start(db), db.audit, d, approval.value);
      assert Initial(approval.value) == approval.value;
      assert Start(u).approvals == Start(db).approvals[d := approval.value];
      assert ViewOf(u) == ViewOf(db).(approvals := db.approvals[d := approval.value]);
    } else {
      assert Start(u) == Start(db) && ViewOf(u) == ViewOf(db);
    }
  }

  lemma SavedOutbox(db: Database, u: Database, authorization: Authorization, approval: Option<Approval>,
                    idempotency: Option<(string, Fingerprint)>)
    requires Consistent(db) && Accounted(db) && ServiceAuthorization(db, authorization, approval, idempotency)
    requires SaveAuthorization(db, authorization, approval, idempotency) == Some(u)
    ensures AuditPart(u.outbox) == u.audit
    ensures forall p :: p in u.projects ==> Balanced(u, p)
  {
    hide W.Append, Consistent, Replayable, Balanced, Evolves, AuditPart, OutboxCount;
    var d, q := authorization.decisionId, authorization.projectId;
    SaveKeeps(db, authorization, approval, idempotency);
    NoApprovalYet(db, d);
    SavedEvents(db.outbox, q, d, q);
    forall p | p in u.projects ensures Balanced(u, p) {
      SavedEvents(db.outbox, q, d, p);
      SavedBalance(db, u, authorization, approval, p);
    }
  }

  lemma SavedEvents(outbox: seq<Event>, q: Id, d: Id, p: Id)
    ensures AuditPart(outbox + [AuthorizationCreated(q, d)]) == AuditPart(outbox)
    ensures AuditPart(outbox + [AuthorizationCreated(q, d), ApprovalRequested(q, d)]) == AuditPart(outbox)
    ensures OutboxCount(outbox + [AuthorizationCreated(q, d)], p) == OutboxCount(outbox, p) + if p == q then 1 else 0
    ensures OutboxCount(outbox + [AuthorizationCreated(q, d), ApprovalRequested(q, d)], p)
            == OutboxCount(outbox, p) + if p == q then 2 else 0
  {
    OutboxOneMore(outbox, AuthorizationCreated(q, d));
    OutboxOneMore(outbox + [AuthorizationCreated(q, d)], ApprovalRequested(q, d));
    assert outbox + [AuthorizationCreated(q, d)] + [ApprovalRequested(q, d)]
           == outbox + [AuthorizationCreated(q, d), ApprovalRequested(q, d)];
  }

  lemma NoApprovalYet(db: Database, d: Id)
    requires Consistent(db) && d !in db.ledger.decisions
    ensures d !in db.approvals
  {
    hide LedgerOk, GrantsOk, IdempotencyOk;
  }

  lemma SavedBalance(db: Database, u: Database, authorization: Authorization, approval: Option<Approval>, p: Id)
    requires Balanced(db, p) && AddedDecision(db, u, authorization) && authorization.decisionId !in db.approvals
    requires u.approvals == if approval.Some? then db.approvals[authorization.decisionId := approval.value] else db.approvals
    requires u.audit == db.audit
    requires OutboxCount(u.outbox, p) == OutboxCount(db.outbox, p)
             + if p != authorization.projectId then 0 else if approval.Some? then 2 else 1
    ensures Balanced(u, p)
  {
    hide OutboxCount, AuditCount, AddedDecision;
    DecisionIdsGrow(db, u, authorization, p);
    ApprovalIdsGrow(db, u, authorization, approval, p);
  }

  lemma DecisionIdsGrow(db: Database, u: Database, authorization: Authorization, p: Id)
    requires AddedDecision(db, u, authorization)
    ensures |L.DecisionIds(u.ledger, p)| == |L.DecisionIds(db.ledger, p)| + if p == authorization.projectId then 1 else 0
  {
    var d := authorization.decisionId;
    assert L.DecisionIds(u.ledger, p)
           == L.DecisionIds(db.ledger, p) + if p == authorization.projectId then {d} else {};
  }

  lemma ApprovalIdsGrow(db: Database, u: Database, authorization: Authorization, approval: Option<Approval>, p: Id)
    requires AddedDecision(db, u, authorization) && authorization.decisionId !in db.approvals
    requires u.approvals == if approval.Some? then db.approvals[authorization.decisionId := approval.value] else db.approvals
    ensures |ApprovalIds(u, p)| == |ApprovalIds(db, p)|
                                   + if approval.Some? && p == authorization.projectId then 1 else 0
  {
    hide L.DecisionIds, W.Grows;
    var d := authorization.decisionId;
    assert forall e :: e in db.approvals && InProject(db, e, p) ==> InProject(u, e, p);
    assert ApprovalIds(u, p)
           == ApprovalIds(db, p) + if approval.Some? && p == authorization.projectId then {d} else {};
  }

  predicate Resolves(event: AuditEvent, d: Id) {
    (event.ApprovalResolved? || event.ApprovalLapsed?) && event.decision == d
  }

  predicate Ends(event: AuditEvent, d: Id) {
    (event.GrantConsumed? || event.GrantLapsed?) && event.decision == d
  }

  predicate Issues(event: AuditEvent, d: Id) {
    event.GrantIssued? && event.decision == d
  }

  /** In a log that replays, an approval is resolved at most once, and its grant is issued
      and ended at most once each. */
  lemma {:induction false} OneEventPerTransition(v: View, events: seq<AuditEvent>, i: nat, j: nat, d: Id)
    requires Replay(v, events).Some? && i < j < |events|
    ensures !(Resolves(events[i], d) && Resolves(events[j], d))
    ensures !(Ends(events[i], d) && Ends(events[j], d))
    ensures !(Issues(events[i], d) && Issues(events[j], d))
    decreases |events|
  {
    var n := |events| - 1;
    if j < n {
      OneEventPerTransition(v, events[..n], i, j, d);
    } else {
      TransitionIsLasting(v, events[..n], i, d);
    }
  }

  lemma {:induction false} TransitionIsLasting(v: View, events: seq<AuditEvent>, i: nat, d: Id)
    requires Replay(v, events).Some? && i < |events|
    ensures var w := Replay(v, events).value;
            && (Resolves(events[i], d) ==> !PendingIn(w, d))
            && (Ends(events[i], d) ==> d in w.grants && !ActiveIn(w, d))
            && (Issues(events[i], d) ==> d in w.grants)
    decreases |events|
  {
    var n := |events| - 1;
    if i < n {
      TransitionIsLasting(v, events[..n], i, d);
    }
  }
}
