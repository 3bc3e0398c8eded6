/** Two runs from the initial state in which a request is authorized and approved. In one,
    two consumers come too late together, and a call ends in the failed grant expiration.
    In the other, a slow approver is handed the grant that has been consumed meanwhile. */
module ProtocolWitness {
  import opened Ordering
  import opened Integrity
  import opened Store
  import opened StoreInvariants
  import opened Accounting
  import opened Protocol
  import opened ProtocolInvariants
  import opened ProtocolRuns
  import opened ProtocolTheorems
  import L = Ledger
  import W = LedgerWrites

  const PROJECT: Id := 1
  const DECISION: Id := 7
  const GRANT: Id := 8
  const LIFETIMES := Settings(10, 10)
  const REQUESTED := Request("agent", "pay", "{}")
  const VERDICT := Body(0, RequireApproval, Some("limits"), Some(1), "large", None, REQUESTED, "[]")
  const AUTHORIZED := Authorization(DECISION, PROJECT, VERDICT)
  const TOKEN := Payload(GRANT, DECISION, PROJECT, FingerprintOf(REQUESTED), 0, 10)
  const ISSUED := Grant(TOKEN, Active, HashOfToken(TOKEN), None, None)

  const AUTHORIZE := AuthorizeInput(REQUESTED, None)
  const APPROVE := ApproveInput(DECISION, "alice", 0)
  const CONSUME := ConsumeInput(Some(TOKEN), REQUESTED, "worker", 100)
  const PROMPT := ConsumeInput(Some(TOKEN), REQUESTED, "worker", 5)
  const USED := ISSUED.(status := Consumed, consumedAt := Some(5), consumedBy := Some("worker"))

  function Advances(call: Id, choice: Choice, n: nat): seq<Action> {
    seq(n, _ => Advance(call, choice))
  }

  function Saving(): seq<Action> {
    [Begin(1, PROJECT, AUTHORIZE, 0)] + Advances(1, Choice(0, DECISION, Some(VERDICT)), 1)
  }

  function Approving(): seq<Action> {
    [Begin(2, PROJECT, APPROVE, 0)] + Advances(2, Choice(0, GRANT, None), 9)
  }

  function Late(call: Id): seq<Action> {
    [Begin(call, PROJECT, CONSUME, 100)] + Advances(call, Choice(100, 0, None), 2)
  }

  function Expiring(call: Id): seq<Action> {
    Advances(call, Choice(100, 0, None), 1)
  }

  function Reading(): seq<Action> {
    [Begin(5, PROJECT, APPROVE, 0)] + Advances(5, Choice(0, 9, None), 3)
  }

  function Consuming(): seq<Action> {
    [Begin(6, PROJECT, PROMPT, 5)] + Advances(6, Choice(5, 0, None), 3)
  }

  function Finishing(): seq<Action> {
    Advances(5, Choice(0, 9, None), 5)
  }

  // ---------------------------------------------------------------- running it

  lemma {:induction false} RunConcat(c: Config, a: seq<Action>, b: seq<Action>)
    ensures Run(c, a + b) == Run(Run(c, a), b)
    decreases |b|
  {
    hide Apply;
    if b == [] {
      assert a + b == a;
    } else {
      assert (a + b)[..|a + b| - 1] == a + b[..|b| - 1];
      RunConcat(c, a, b[..|b| - 1]);
    }
  }

  /** Call id is at pc, in this database, and the run can go on from here. */
  predicate At(c: Config, db: Database, id: Id, input: Input, pc: Pc) {
    c.settings == LIFETIMES && c.db == db && PROJECT in db.projects
    && id in c.calls && c.calls[id] == Call(PROJECT, input, pc)
  }

  lemma BeginAt(c: Config, id: Id, input: Input, now: Instant)
    requires c.settings == LIFETIMES && PROJECT in c.db.projects && id !in c.calls
    ensures var u := Run(c, [Begin(id, PROJECT, input, now)]);
            At(u, c.db, id, input, Entry(PROJECT, input, now))
            && forall e :: e in c.calls ==> e in u.calls && u.calls[e] == c.calls[e]
    ensures Run(c, [Begin(id, PROJECT, input, now)]).calls.Keys == c.calls.Keys + {id}
  {
    hide Entry;
    assert Run(c, [Begin(id, PROJECT, input, now)][..0]) == c;
  }

  /** One more step of the same call. */
  lemma AdvanceAt(c: Config, db: Database, id: Id, input: Input, pc: Pc, choice: Choice)
    requires At(c, db, id, input, pc)
    ensures var next := Step(LIFETIMES, db, PROJECT, input, pc, choice);
            var u := Run(c, Advances(id, choice, 1));
            && (PROJECT in next.db.projects ==> At(u, next.db, id, input, next.pc))
            && (forall e :: e in c.calls && e != id ==> e in u.calls && u.calls[e] == c.calls[e])
            && u.calls.Keys == c.calls.Keys
  {
    hide Step;
    var actions := Advances(id, choice, 1);
    assert actions == [Advance(id, choice)];
    assert Run(c, actions[..0]) == c;
  }

  /** The configuration after n steps of one call. */
  function Stepped(n: nat, db: Database, input: Input, pc: Pc, choice: Choice): Next {
    if n == 0 then Next(db, pc)
    else
      var before := Stepped(n - 1, db, input, pc, choice);
      Step(LIFETIMES, before.db, PROJECT, input, before.pc, choice)
  }

  lemma {:induction false} AdvancesAt(n: nat, c: Config, db: Database, id: Id, input: Input, pc: Pc, choice: Choice)
    requires At(c, db, id, input, pc)
    requires forall k :: 0 <= k <= n ==> PROJECT in Stepped(k, db, input, pc, choice).db.projects
    ensures var last := Stepped(n, db, input, pc, choice);
            var u := Run(c, Advances(id, choice, n));
            && At(u, last.db, id, input, last.pc)
            && (forall e :: e in c.calls && e != id ==> e in u.calls && u.calls[e] == c.calls[e])
            && u.calls.Keys == c.calls.Keys
  {
    hide Step, At, Run;
    if n == 0 {
      RunNothing(c);
    } else {
      AdvancesAt(n - 1, c, db, id, input, pc, choice);
      var before := Stepped(n - 1, db, input, pc, choice);
      assert PROJECT in Stepped(n, db, input, pc, choice).db.projects;
      AdvanceAt(Run(c, Advances(id, choice, n - 1)), before.db, id, input, before.pc, choice);
      assert Advances(id, choice, n) == Advances(id, choice, n - 1) + Advances(id, choice, 1);
      RunConcat(c, Advances(id, choice, n - 1), Advances(id, choice, 1));
    }
  }

  lemma RunNothing(c: Config)
    ensures Run(c, []) == c
    ensures forall id, choice :: Advances(id, choice, 0) == []
  {
  }

  // ---------------------------------------------------------------- the three databases

  /** After the save: one pending approval, no grant. */
  predicate Requested(db: Database) {
    && db.projects == {PROJECT} && GetDecision(db, DECISION, PROJECT) == Some(AUTHORIZED)
    && db.approvals == map[DECISION := Approval(Pending, 0, Some(10), None, None)] && db.grants == map[]
  }

  lemma SaveRequests()
    ensures var start := Initially(LIFETIMES, {PROJECT}).db;
            var next := Step(LIFETIMES, start, PROJECT, AUTHORIZE, AuthorizeSave, Choice(0, DECISION, Some(VERDICT)));
            Requested(next.db)
  {
    hide W.Append, W.Sound, Inv;
    var start := Initially(LIFETIMES, {PROJECT}).db;
    StartIsSound();
    W.AppendKeepsSound(start.ledger, AUTHORIZED);
    assert VERDICT.(evaluatedAt := 0, request := REQUESTED) == VERDICT;
    SaveRow(start, AUTHORIZED, Approval(Pending, 0, Some(10), None, None));
  }

  lemma StartIsSound()
    ensures W.Sound(L.Tables(map[], map[]))
  {
    hide W.Sound, DatesOk, Accounted, Consistent;
    InitiallyOk(LIFETIMES, {PROJECT});
    LedgerIsSound(Initially(LIFETIMES, {PROJECT}).db);
  }

  lemma SaveRow(db: Database, authorization: Authorization, approval: Approval)
    requires W.Append(db.ledger, authorization).Some? && authorization.decisionId !in db.approvals && ApprovalChecks(approval)
    ensures var u := SaveAuthorization(db, authorization, Some(approval), None);
            u.Some? && u.value.ledger == W.Append(db.ledger, authorization).value && u.value.projects == db.projects
            && u.value.approvals == db.approvals[authorization.decisionId := approval] && u.value.grants == db.grants
  {
    hide W.Append, ApprovalChecks;
  }

  /** After the approval: its grant is active until time 10. */
  predicate Granting(db: Database) {
    && db.projects == {PROJECT} && GetDecision(db, DECISION, PROJECT) == Some(AUTHORIZED)
    && db.approvals.Keys == {DECISION} && db.approvals[DECISION].status == Approved
    && db.grants == map[DECISION := ISSUED]
  }

  lemma NothingDue(db: Database, at: Instant)
    requires Requested(db) && at < 10
    ensures DueApprovals(db, PROJECT, at) == [] && ExpireDue(db, PROJECT, at, []) == db
  {
    var due := DueApprovals(db, PROJECT, at);
    assert forall d :: d !in due;
  }

  lemma ApproveGrants(db: Database)
    requires Requested(db)
    ensures Approve(db, ISSUED, "alice", 0).Ok? && Granting(Approve(db, ISSUED, "alice", 0).value)
    ensures DECISION in Approve(db, ISSUED, "alice", 0).value.approvals
  {
    ApproveAllOrNothing(db, ISSUED, "alice");
  }

  // ---------------------------------------------------------------- the approver's nine steps

  lemma ApproverReads(db: Database)
    requires Requested(db)
    ensures var choice := Choice(0, GRANT, None);
            && Step(LIFETIMES, db, PROJECT, APPROVE, ApproveRead, choice) == Next(db, ApproveLoad)
            && Step(LIFETIMES, db, PROJECT, APPROVE, ApproveLoad, choice) == Next(db, SweepSelect(0, ApproveCheck(ISSUED)))
            && Step(LIFETIMES, db, PROJECT, APPROVE, ApproveCheck(ISSUED), choice) == Next(db, ApproveVerify(ISSUED))
            && Step(LIFETIMES, db, PROJECT, APPROVE, ApproveVerify(ISSUED), choice) == Next(db, ApproveWrite(ISSUED))
  {
    hide Approve;
    assert NewGrant(LIFETIMES, AUTHORIZED, GRANT, 0) == ISSUED;
  }

  lemma ApproverSweeps(db: Database, next: Pc, choice: Choice)
    requires Requested(db)
    ensures Step(LIFETIMES, db, PROJECT, APPROVE, SweepSelect(0, next), choice) == Next(db, SweepWrite(0, [], next))
    ensures Step(LIFETIMES, db, PROJECT, APPROVE, SweepWrite(0, [], next), choice) == Next(db, next)
  {
    NothingDue(db, 0);
  }

  lemma ApproverWrites(db: Database)
    requires Requested(db)
    ensures Granting(Step(LIFETIMES, db, PROJECT, APPROVE, ApproveWrite(ISSUED), Choice(0, GRANT, None)).db)
  {
    hide Approve, Granting;
    ApproveGrants(db);
  }

  lemma ApproverSteps(db: Database)
    requires Requested(db)
    ensures var pc := SweepSelect(0, ApproveRead);
            && (forall k :: 0 <= k <= 8 ==> Stepped(k, db, APPROVE, pc, Choice(0, GRANT, None)).db == db)
            && Granting(Stepped(9, db, APPROVE, pc, Choice(0, GRANT, None)).db)
  {
    hide Step, Requested, Granting;
    var pc, choice := SweepSelect(0, ApproveRead), Choice(0, GRANT, None);
    ApproverReads(db);
    ApproverSweeps(db, ApproveRead, choice);
    ApproverSweeps(db, ApproveCheck(ISSUED), choice);
    ApproverWrites(db);
    assert Stepped(0, db, APPROVE, pc, choice) == Next(db, pc);
    assert Stepped(1, db, APPROVE, pc, choice) == Next(db, SweepWrite(0, [], ApproveRead));
    assert Stepped(2, db, APPROVE, pc, choice) == Next(db, ApproveRead);
    assert Stepped(3, db, APPROVE, pc, choice) == Next(db, ApproveLoad);
    assert Stepped(4, db, APPROVE, pc, choice) == Next(db, SweepSelect(0, ApproveCheck(ISSUED)));
    assert Stepped(5, db, APPROVE, pc, choice) == Next(db, SweepWrite(0, [], ApproveCheck(ISSUED)));
    assert Stepped(6, db, APPROVE, pc, choice) == Next(db, ApproveCheck(ISSUED));
    assert Stepped(7, db, APPROVE, pc, choice) == Next(db, ApproveVerify(ISSUED));
    assert Stepped(8, db, APPROVE, pc, choice) == Next(db, ApproveWrite(ISSUED));
  }

  // ---------------------------------------------------------------- the late consumers

  lemma ConsumerReads(db: Database, choice: Choice)
    requires Granting(db)
    ensures Entry(PROJECT, CONSUME, 100) == ConsumeDecision
    ensures Stepped(0, db, CONSUME, ConsumeDecision, choice).db == db
    ensures Stepped(1, db, CONSUME, ConsumeDecision, choice).db == db
    ensures Stepped(2, db, CONSUME, ConsumeDecision, choice) == Next(db, ConsumeLapse)
  {
    assert Stepped(1, db, CONSUME, ConsumeDecision, choice) == Next(db, ConsumeRead);
  }

  lemma FirstExpires(db: Database, choice: Choice)
    requires Granting(db)
    ensures var first := Step(LIFETIMES, db, PROJECT, CONSUME, ConsumeLapse, choice);
            PROJECT in first.db.projects
            && Step(LIFETIMES, first.db, PROJECT, CONSUME, ConsumeLapse, choice) == Next(first.db, Done(Crash(LapseFailed)))
  {
  }

  // ---------------------------------------------------------------- the run

  lemma Authorizing()
    ensures var c := Run(Initially(LIFETIMES, {PROJECT}), Saving());
            c.settings == LIFETIMES && Requested(c.db) && c.calls.Keys == {1}
  {
    hide Run, Step, Requested;
    var c := Initially(LIFETIMES, {PROJECT});
    var choice := Choice(0, DECISION, Some(VERDICT));
    BeginAt(c, 1, AUTHORIZE, 0);
    SaveRequests();
    RequestedProject();
    AdvanceAt(Run(c, [Begin(1, PROJECT, AUTHORIZE, 0)]), c.db, 1, AUTHORIZE, AuthorizeSave, choice);
    RunConcat(c, [Begin(1, PROJECT, AUTHORIZE, 0)], Advances(1, choice, 1));
  }

  lemma RequestedProject()
    ensures forall db :: Requested(db) || Granting(db) ==> PROJECT in db.projects
  {
  }

  lemma ApprovingGrants(c: Config)
    requires c.settings == LIFETIMES && Requested(c.db) && 2 !in c.calls
    ensures var u := Run(c, Approving());
            u.settings == LIFETIMES && Granting(u.db) && u.calls.Keys == c.calls.Keys + {2}
            && forall e :: e in c.calls ==> u.calls[e] == c.calls[e]
  {
    hide Run, Step, Requested, Granting, Stepped;
    var choice := Choice(0, GRANT, None);
    RequestedProject();
    BeginAt(c, 2, APPROVE, 0);
    ApproverSteps(c.db);
    AdvancesAt(9, Run(c, [Begin(2, PROJECT, APPROVE, 0)]), c.db, 2, APPROVE, SweepSelect(0, ApproveRead), choice);
    RunConcat(c, [Begin(2, PROJECT, APPROVE, 0)], Advances(2, choice, 9));
  }

  lemma ArrivingLate(c: Config, id: Id)
    requires c.settings == LIFETIMES && Granting(c.db) && id !in c.calls
    ensures var u := Run(c, Late(id));
            At(u, c.db, id, CONSUME, ConsumeLapse) && u.calls.Keys == c.calls.Keys + {id}
            && forall e :: e in c.calls ==> u.calls[e] == c.calls[e]
  {
    hide Run, Step, Granting, Stepped;
    var choice := Choice(100, 0, None);
    RequestedProject();
    BeginAt(c, id, CONSUME, 100);
    ConsumerReads(c.db, choice);
    AdvancesAt(2, Run(c, [Begin(id, PROJECT, CONSUME, 100)]), c.db, id, CONSUME, ConsumeDecision, choice);
    RunConcat(c, [Begin(id, PROJECT, CONSUME, 100)], Advances(id, choice, 2));
  }

  /** The whole run: from the initial state, the second of two late consumers ends in the
      internal error instead of learning that its grant has expired. */
  lemma LapseFailureIsReached()
    ensures var run := Saving() + Approving() + Late(3) + Late(4) + Expiring(3) + Expiring(4);
            var c := Run(Initially(LIFETIMES, {PROJECT}), run);
            4 in c.calls && c.calls[4].pc == Done(Crash(LapseFailed))
  {
    hide Run, Step, Requested, Granting;
    var start, choice := Initially(LIFETIMES, {PROJECT}), Choice(100, 0, None);
    Authorizing();
    var requested := Run(start, Saving());
    ApprovingGrants(requested);
    var granting := Run(requested, Approving());
    ArrivingLate(granting, 3);
    var one := Run(granting, Late(3));
    ArrivingLate(one, 4);
    var two := Run(one, Late(4));
    FirstExpires(two.db, choice);
    var first := Step(LIFETIMES, two.db, PROJECT, CONSUME, ConsumeLapse, choice);
    AdvanceAt(two, two.db, 3, CONSUME, ConsumeLapse, choice);
    var expired := Run(two, Expiring(3));
    AdvanceAt(expired, first.db, 4, CONSUME, ConsumeLapse, choice);
    RunConcat(start, Saving(), Approving());
    RunConcat(start, Saving() + Approving(), Late(3));
    RunConcat(start, Saving() + Approving() + Late(3), Late(4));
    RunConcat(start, Saving() + Approving() + Late(3) + Late(4), Expiring(3));
    RunConcat(start, Saving() + Approving() + Late(3) + Late(4) + Expiring(3), Expiring(4));
  }

  // ---------------------------------------------------------------- the slow approver

  /** After the consumption: the approval stands, its grant is consumed. */
  predicate Spent(db: Database) {
    && db.projects == {PROJECT} && GetDecision(db, DECISION, PROJECT) == Some(AUTHORIZED)
    && db.approvals.Keys == {DECISION} && db.approvals[DECISION].status == Approved
    && db.grants == map[DECISION := USED]
  }

  lemma ReaderSteps(db: Database, choice: Choice)
    requires Requested(db)
    ensures var pc := SweepSelect(0, ApproveRead);
            && (forall k :: 0 <= k <= 3 ==> Stepped(k, db, APPROVE, pc, choice).db == db)
            && Stepped(3, db, APPROVE, pc, choice).pc == ApproveLoad
  {
    hide Requested;
    var pc := SweepSelect(0, ApproveRead);
    ApproverSweeps(db, ApproveRead, choice);
    PendingIsLoaded(db, choice);
    assert Stepped(0, db, APPROVE, pc, choice) == Next(db, pc);
    assert Stepped(1, db, APPROVE, pc, choice) == Next(db, SweepWrite(0, [], ApproveRead));
    assert Stepped(2, db, APPROVE, pc, choice) == Next(db, ApproveRead);
    assert Stepped(3, db, APPROVE, pc, choice) == Next(db, ApproveLoad);
  }

  lemma PendingIsLoaded(db: Database, choice: Choice)
    requires Requested(db)
    ensures Step(LIFETIMES, db, PROJECT, APPROVE, ApproveRead, choice) == Next(db, ApproveLoad)
  {
  }

  lemma ConsumerConsumes(db: Database, choice: Choice)
    requires Granting(db)
    ensures Entry(PROJECT, PROMPT, 5) == ConsumeDecision
    ensures forall k :: 0 <= k <= 2 ==> Stepped(k, db, PROMPT, ConsumeDecision, choice).db == db
    ensures Spent(Stepped(3, db, PROMPT, ConsumeDecision, choice).db)
  {
    assert Stepped(0, db, PROMPT, ConsumeDecision, choice) == Next(db, ConsumeDecision);
    assert Stepped(1, db, PROMPT, ConsumeDecision, choice) == Next(db, ConsumeRead);
    assert Stepped(2, db, PROMPT, ConsumeDecision, choice) == Next(db, ConsumeWrite);
  }

  lemma SpentIsNotDue(db: Database)
    requires Spent(db)
    ensures DueApprovals(db, PROJECT, 0) == [] && ExpireDue(db, PROJECT, 0, []) == db
  {
    var due := DueApprovals(db, PROJECT, 0);
    assert forall d :: d !in due;
  }

  lemma SlowSteps(db: Database, choice: Choice)
    requires Spent(db)
    ensures (forall k :: 0 <= k <= 5 ==> Stepped(k, db, APPROVE, ApproveLoad, choice).db == db)
            && Stepped(5, db, APPROVE, ApproveLoad, choice).pc == Done(Granted(db.approvals[DECISION], USED))
  {
    hide DueApprovals, ExpireDue;
    SpentIsNotDue(db);
    var next := ApproveCheck(NewGrant(LIFETIMES, AUTHORIZED, choice.newId, 0));
    assert Stepped(0, db, APPROVE, ApproveLoad, choice) == Next(db, ApproveLoad);
    assert Stepped(1, db, APPROVE, ApproveLoad, choice) == Next(db, SweepSelect(0, next));
    assert Stepped(2, db, APPROVE, ApproveLoad, choice) == Next(db, SweepWrite(0, [], next));
    assert Stepped(3, db, APPROVE, ApproveLoad, choice) == Next(db, next);
    assert Stepped(4, db, APPROVE, ApproveLoad, choice) == Next(db, ApproveStored(db.approvals[DECISION]));
  }

  lemma ReadingStops(c: Config)
    requires c.settings == LIFETIMES && Requested(c.db) && c.calls.Keys == {1}
    ensures var u := Run(c, Reading()); At(u, c.db, 5, APPROVE, ApproveLoad) && u.calls.Keys == {1, 5}
  {
    hide Run, Step, Requested, Stepped;
    var choice := Choice(0, 9, None);
    RequestedProject();
    BeginAt(c, 5, APPROVE, 0);
    ReaderSteps(c.db, choice);
    AdvancesAt(3, Run(c, [Begin(5, PROJECT, APPROVE, 0)]), c.db, 5, APPROVE, SweepSelect(0, ApproveRead), choice);
    RunConcat(c, [Begin(5, PROJECT, APPROVE, 0)], Advances(5, choice, 3));
  }

  lemma ConsumingSpends(c: Config)
    requires c.settings == LIFETIMES && Granting(c.db) && 6 !in c.calls
    ensures var u := Run(c, Consuming());
            u.settings == LIFETIMES && Spent(u.db) && forall e :: e in c.calls ==> e in u.calls && u.calls[e] == c.calls[e]
  {
    hide Run, Step, Granting, Spent, Stepped;
    var choice := Choice(5, 0, None);
    RequestedProject();
    SpentProject();
    BeginAt(c, 6, PROMPT, 5);
    ConsumerConsumes(c.db, choice);
    AdvancesAt(3, Run(c, [Begin(6, PROJECT, PROMPT, 5)]), c.db, 6, PROMPT, ConsumeDecision, choice);
    RunConcat(c, [Begin(6, PROJECT, PROMPT, 5)], Advances(6, choice, 3));
  }

  lemma SpentProject()
    ensures forall db :: Spent(db) ==> PROJECT in db.projects && DECISION in db.grants && db.grants[DECISION] == USED
  {
  }

  /** The whole run: an approver that read the approval as pending is overtaken by another
      approver and by a consumer, and is handed the consumed grant. */
  lemma SpentGrantIsHandedOut()
    ensures var run := Saving() + Reading() + Approving() + Consuming() + Finishing();
            var c := Run(Initially(LIFETIMES, {PROJECT}), run);
            && 5 in c.calls && DECISION in c.db.grants && c.db.grants[DECISION] == USED
            && c.calls[5].pc.Done? && c.calls[5].pc.answer.Granted? && c.calls[5].pc.answer.issued == USED
  {
    hide Run, Step, Requested, Granting, Spent, Stepped;
    var start, choice := Initially(LIFETIMES, {PROJECT}), Choice(0, 9, None);
    Authorizing();
    var requested := Run(start, Saving());
    ReadingStops(requested);
    var reading := Run(requested, Reading());
    ApprovingGrants(reading);
    var granting := Run(reading, Approving());
    ConsumingSpends(granting);
    var spent := Run(granting, Consuming());
    SpentProject();
    SlowSteps(spent.db, choice);
    AdvancesAt(5, spent, spent.db, 5, APPROVE, ApproveLoad, choice);
    RunConcat(start, Saving(), Reading());
    RunConcat(start, Saving() + Reading(), Approving());
    RunConcat(start, Saving() + Reading() + Approving(), Consuming());
    RunConcat(start, Saving() + Reading() + Approving() + Consuming(), Finishing());
  }
}
