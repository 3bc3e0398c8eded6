/** record_delivery_result and request_redelivery_with_connection as they run: they read
    before their write transaction begins, and others may commit in between. A machine in
    which any number of such calls run beside atomic operations; what breaks it, exactly, and
    that every other run of it is a run of atomic operations. */
module WebhookRaces {
  import opened Ordering
  import opened Integrity
  import opened Webhooks
  import opened WebhookInvariants

  // ---------------------------------------------------------------- recording

  /** The UPDATE of record_delivery_result: status and counters are computed from the row as
      read. */
  function Written(current: Delivery, read: Delivery, retry: RetryPolicy, active: bool, attempt: Attempt): Delivery {
    var after := AfterAttempt(read, retry, active, attempt.completedAt, attempt.outcome);
    current.(status := after.status, attemptCount := after.attemptCount, failureCount := after.failureCount,
             nextAttemptAt := after.nextAttemptAt, leaseExpiresAt := None, deliveredAt := after.deliveredAt)
  }

  /** The write transaction: the attempt is inserted under its number, the subscription is
      looked up, and the UPDATE matches the row only if it is still PROCESSING. */
  function WriteRecord(u: Hub, p: Id, d: Id, read: Delivery, retry: RetryPolicy, attempt: Attempt): Result<Hub, WebhookError>
    requires d in u.deliveries
  {
    if (d, read.attemptCount + 1) in u.attempts then Err(IntegrityError)
    else
      var inserted := u.(attempts := u.attempts[(d, read.attemptCount + 1) := attempt]);
      if u.deliveries[d].status != Processing then Ok(inserted)
      else
        Ok(inserted.(deliveries := u.deliveries[d := Written(u.deliveries[d], read, retry,
                                                             OwnActive(u, p, read.subscriptionId), attempt)]))
  }

  /** Read at h, written at u. */
  function RecordSplit(h: Hub, u: Hub, p: Id, d: Id, retry: RetryPolicy, attempt: Attempt): Result<Hub, WebhookError>
    requires d in h.deliveries ==> d in u.deliveries
  {
    if !OwnDelivery(h, p, d) then Err(DeliveryNotFound)
    else if h.deliveries[d].status != Processing then Err(DeliveryState(h.deliveries[d].status))
    else WriteRecord(u, p, d, h.deliveries[d], retry, attempt)
  }

  /** A row read earlier is an earlier state of the row. */
  predicate Remembers(m: int, u: Hub, p: Id, d: Id, read: Delivery) {
    OwnDelivery(u, p, d) && DeliveryOk(m, read) && DeliveryStep(read, u.deliveries[d])
  }

  /** Equal sums of equal-sized batches and smaller rests have equal parts. */
  lemma BatchesAre(m: int, r: nat, f: nat, s: nat, g: nat)
    requires m >= 1 && f < m && g < m && r * m + f == s * m + g
    ensures r == s && f == g
  {
    OneMoreBatch(m, r, s);
    OneMoreBatch(m, s, r);
  }

  lemma OneMoreBatch(m: int, r: nat, s: nat)
    requires m >= 1
    ensures r < s ==> r * m + m <= s * m
  {
    if r < s {
      assert (s - r - 1) * m >= 0;
      assert s * m == r * m + m + (s - r - 1) * m;
    }
  }

  /** A row without a newer attempt is the row that was read, up to its lease, or cancelled. */
  lemma StillTheSameRow(m: int, u: Hub, p: Id, d: Id, read: Delivery)
    requires m >= 1 && HubOk(m, u) && Remembers(m, u, p, d, read)
    requires read.status == Processing && (d, read.attemptCount + 1) !in u.attempts
    ensures u.deliveries[d].attemptCount == read.attemptCount
    ensures u.deliveries[d].status == Processing || u.deliveries[d].status == Cancelled
    ensures u.deliveries[d].status == Processing ==>
              u.deliveries[d].failureCount == read.failureCount && u.deliveries[d].redeliveryCount == read.redeliveryCount
  {
    hide LinksOk, Shaped;
    assert DeliveryOk(m, u.deliveries[d]);
    if u.deliveries[d].status == Processing {
      BatchesAre(m, read.redeliveryCount, read.failureCount, u.deliveries[d].redeliveryCount, u.deliveries[d].failureCount);
    }
  }

  lemma WriteRecordKeepsIff(m: int, u: Hub, p: Id, d: Id, read: Delivery, retry: RetryPolicy, attempt: Attempt)
    requires m >= 1 && retry.maxAttempts == m && HubOk(m, u) && Remembers(m, u, p, d, read)
    requires read.status == Processing && WriteRecord(u, p, d, read, retry, attempt).Ok?
    ensures HubOk(m, WriteRecord(u, p, d, read, retry, attempt).value) <==> u.deliveries[d].status != Cancelled
    ensures u.deliveries[d].status != Cancelled ==>
              WriteRecord(u, p, d, read, retry, attempt) == RecordResult(u, p, d, retry, attempt)
  {
    hide RowsOk, LinksOk, Wants;
    StillTheSameRow(m, u, p, d, read);
    if u.deliveries[d].status == Processing {
      RecordKeeps(m, u, p, d, retry, attempt);
    } else {
      var after := WriteRecord(u, p, d, read, retry, attempt).value;
      assert (d, read.attemptCount + 1) in after.attempts;
    }
  }

  lemma Remembered(m: int, h: Hub, u: Hub, p: Id, d: Id)
    requires HubOk(m, h) && Evolves(h, u) && OwnDelivery(h, p, d)
    ensures Remembers(m, u, p, d, h.deliveries[d])
  {
    hide DeliveryOk, Numbered, LinksOk;
  }

  /** Exactly when a split record does what the atomic one does: it is accepted with the row
      not cancelled, and then it is the atomic record, or refused. An accepted record of a
      row that has meanwhile been cancelled leaves an attempt that no counter covers. */
  lemma RecordSplitKeepsIff(m: int, h: Hub, u: Hub, p: Id, d: Id, retry: RetryPolicy, attempt: Attempt)
    requires m >= 1 && retry.maxAttempts == m && HubOk(m, h) && HubOk(m, u) && Evolves(h, u)
    requires d in h.deliveries ==> d in u.deliveries
    requires RecordSplit(h, u, p, d, retry, attempt).Ok?
    ensures HubOk(m, RecordSplit(h, u, p, d, retry, attempt).value) <==> u.deliveries[d].status != Cancelled
    ensures u.deliveries[d].status != Cancelled ==>
              RecordSplit(h, u, p, d, retry, attempt) == RecordResult(u, p, d, retry, attempt)
  {
    hide HubOk, Evolves, WriteRecord;
    Remembered(m, h, u, p, d);
    WriteRecordKeepsIff(m, u, p, d, h.deliveries[d], retry, attempt);
  }

  /** No operation deletes a delivery. */
  lemma ApplyKeepsRows(retry: RetryPolicy, h: Hub, op: Op)
    ensures h.deliveries.Keys <= Apply(retry, h, op).deliveries.Keys
  {
    hide Claimable, Selected, AfterAttempt, FanOut;
    if op.PublishOp? {
      forall d | d in h.deliveries ensures d in Apply(retry, h, op).deliveries {
        PublishLeavesRows(h, op.event, op.uuids, d);
      }
    }
  }

  lemma {:induction false} RunKeepsRows(retry: RetryPolicy, h: Hub, ops: seq<Op>)
    ensures h.deliveries.Keys <= Run(retry, h, ops).deliveries.Keys
    decreases |ops|
  {
    hide Apply;
    if ops != [] {
      RunKeepsRows(retry, h, ops[..|ops| - 1]);
      ApplyKeepsRows(retry, Run(retry, h, ops[..|ops| - 1]), ops[|ops| - 1]);
    }
  }

  /** The hub after what others commit meanwhile. */
  function Later(retry: RetryPolicy, h: Hub, ops: seq<Op>): (u: Hub)
    ensures h.deliveries.Keys <= u.deliveries.Keys
  {
    RunKeepsRows(retry, h, ops);
    Run(retry, h, ops)
  }

  // ---------------------------------------------------------------- redelivering

  /** The UPDATE of request_redelivery_with_connection, which matches the row only if it is
      still a dead letter. */
  function WriteRedelivery(u: Hub, d: Id, at: Instant): Hub
    requires d in u.deliveries
  {
    if u.deliveries[d].status != DeadLetter then u
    else
      u.(deliveries := u.deliveries[d := u.deliveries[d].(status := Pending, failureCount := 0,
             redeliveryCount := u.deliveries[d].redeliveryCount + 1, nextAttemptAt := Some(at),
             leaseExpiresAt := None, deliveredAt := None)])
  }

  /** The delivery is read at h, its subscription at g, and written at u. */
  function RedeliverSplit(h: Hub, g: Hub, u: Hub, p: Id, d: Id, at: Instant): Result<Hub, WebhookError>
    requires d in h.deliveries ==> d in u.deliveries
  {
    if !OwnDelivery(h, p, d) then Err(DeliveryNotFound)
    else if h.deliveries[d].status != DeadLetter then Err(NotRedeliverable(h.deliveries[d].status))
    else
      var s := h.deliveries[d].subscriptionId;
      if s !in g.subscriptions || g.subscriptions[s].projectId != p then Err(SubscriptionNotFound)
      else if g.subscriptions[s].disabledAt.Some? then Err(SubscriptionDisabled)
      else Ok(WriteRedelivery(u, d, at))
  }

  /** A dead letter whose subscription is disabled. */
  predicate Orphaned(u: Hub, d: Id) {
    d in u.deliveries && u.deliveries[d].status == DeadLetter && DisabledSubscription(u, u.deliveries[d].subscriptionId)
  }

  lemma WriteRedeliveryKeepsIff(m: int, u: Hub, p: Id, d: Id, at: Instant)
    requires m >= 1 && HubOk(m, u) && OwnDelivery(u, p, d)
    ensures HubOk(m, WriteRedelivery(u, d, at)) <==> !Orphaned(u, d)
    ensures !Orphaned(u, d) ==>
              if u.deliveries[d].status == DeadLetter then Redeliver(u, p, d, at) == Ok(WriteRedelivery(u, d, at))
              else WriteRedelivery(u, d, at) == u
  {
    hide RowsOk, Numbered, Wants, LinksOk;
    OwnLink(m, u, d);
    if u.deliveries[d].status == DeadLetter {
      if ActiveSubscription(u, u.deliveries[d].subscriptionId) {
        RedeliverKeeps(m, u, p, d, at);
      } else {
        WaitingOnDisabled(WriteRedelivery(u, d, at), d);
      }
    }
  }

  lemma OwnLink(m: int, h: Hub, d: Id)
    requires HubOk(m, h) && d in h.deliveries
    ensures h.deliveries[d].subscriptionId in h.subscriptions
    ensures h.subscriptions[h.deliveries[d].subscriptionId].projectId == h.deliveries[d].projectId
  {
    hide RowsOk, Numbered, Wants;
    assert Linked(h, d);
  }

  lemma WaitingOnDisabled(h: Hub, d: Id)
    requires d in h.deliveries && Waiting(h.deliveries[d]) && !ActiveSubscription(h, h.deliveries[d].subscriptionId)
    ensures !LinksOk(h)
  {
  }

  /** Exactly when a split redelivery keeps the machine's invariant: unless it revives a dead
      letter whose subscription was disabled after it was looked up. */
  lemma RedeliverSplitKeepsIff(m: int, h: Hub, g: Hub, u: Hub, p: Id, d: Id, at: Instant)
    requires m >= 1 && HubOk(m, h) && HubOk(m, u) && Evolves(h, u)
    requires d in h.deliveries ==> d in u.deliveries
    requires RedeliverSplit(h, g, u, p, d, at).Ok?
    ensures HubOk(m, RedeliverSplit(h, g, u, p, d, at).value) <==> !Orphaned(u, d)
    ensures !Orphaned(u, d) && u.deliveries[d].status == DeadLetter ==>
              RedeliverSplit(h, g, u, p, d, at) == Redeliver(u, p, d, at)
  {
    hide HubOk, Evolves, WriteRedelivery, Redeliver;
    Remembered(m, h, u, p, d);
    WriteRedeliveryKeepsIff(m, u, p, d, at);
  }

  /** It breaks whenever the subscription is disabled between look-up and write. */
  lemma DisabledInBetweenBreaks(m: int, h: Hub, p: Id, d: Id, at: Instant)
    requires m >= 1 && HubOk(m, h) && Redeliver(h, p, d, at).Ok?
    ensures var u := Disable(h, p, h.deliveries[d].subscriptionId, at);
            u.Ok? && OwnDelivery(u.value, p, d) && Orphaned(u.value, d)
            && HubOk(m, u.value) && !HubOk(m, WriteRedelivery(u.value, d, at))
  {
    hide HubOk, Evolves, WriteRedelivery;
    DisableKeeps(m, h, p, h.deliveries[d].subscriptionId, at);
    WriteRedeliveryKeepsIff(m, Disable(h, p, h.deliveries[d].subscriptionId, at).value, p, d, at);
  }

  // ---------------------------------------------------------------- runs

  /** A call that has read but not yet written, with what it read. */
  datatype Unfinished =
    | Recording(project: Id, delivery: Id, attempt: Attempt, read: Delivery)
    | Checking(project: Id, delivery: Id, at: Instant, read: Delivery)
    | Reviving(project: Id, delivery: Id, at: Instant, read: Delivery)

  datatype Race = Race(hub: Hub, calls: map<Id, Unfinished>)

  datatype Move =
    | Atomic(op: Op)
    | StartRecord(call: Id, project: Id, delivery: Id, attempt: Attempt)
    | StartRedelivery(call: Id, project: Id, delivery: Id, at: Instant)
    | Continue(call: Id)

  predicate Reads(h: Hub, p: Id, d: Id, status: DeliveryStatus) {
    OwnDelivery(h, p, d) && h.deliveries[d].status == status
  }

  /** A call that ends is forgotten, also when it ends in an error. */
  function Step(retry: RetryPolicy, r: Race, move: Move): Race {
    match move
    case Atomic(op) => r.(hub := Apply(retry, r.hub, op))
    case StartRecord(id, p, d, attempt) =>
      if id in r.calls || !Reads(r.hub, p, d, Processing) then r
      else r.(calls := r.calls[id := Recording(p, d, attempt, r.hub.deliveries[d])])
    case StartRedelivery(id, p, d, at) =>
      if id in r.calls || !Reads(r.hub, p, d, DeadLetter) then r
      else r.(calls := r.calls[id := Checking(p, d, at, r.hub.deliveries[d])])
    case Continue(id) =>
      if id !in r.calls || r.calls[id].delivery !in r.hub.deliveries then r
      else
        match r.calls[id]
        case Recording(p, d, attempt, read) =>
          Race(Settle(r.hub, WriteRecord(r.hub, p, d, read, retry, attempt)), r.calls - {id})
        case Checking(p, d, at, read) =>
          if OwnActive(r.hub, p, read.subscriptionId) then r.(calls := r.calls[id := Reviving(p, d, at, read)])
          else r.(calls := r.calls - {id})
        case Reviving(_, d, at, _) => Race(WriteRedelivery(r.hub, d, at), r.calls - {id})
  }

  function RunMoves(retry: RetryPolicy, moves: seq<Move>): Race
    decreases |moves|
  {
    if moves == [] then Race(EMPTY_HUB, map[])
    else Step(retry, RunMoves(retry, moves[..|moves| - 1]), moves[|moves| - 1])
  }

  /** The two writes that come too late: the attempt of a cancelled delivery, and the revival
      of a dead letter whose subscription is disabled. */
  predicate TooLate(r: Race, move: Move) {
    move.Continue? && move.call in r.calls
    && match r.calls[move.call]
       case Recording(_, d, _, read) =>
         d in r.hub.deliveries && (d, read.attemptCount + 1) !in r.hub.attempts && r.hub.deliveries[d].status == Cancelled
       case Checking(_, _, _, _) => false
       case Reviving(_, d, _, _) => Orphaned(r.hub, d)
  }

  predicate NeverTooLate(retry: RetryPolicy, moves: seq<Move>)
    decreases |moves|
  {
    moves == []
    || var n := |moves| - 1;
       NeverTooLate(retry, moves[..n]) && !TooLate(RunMoves(retry, moves[..n]), moves[n])
  }

  /** The invariant holds after every move. */
  ghost predicate AlwaysOk(retry: RetryPolicy, moves: seq<Move>)
    decreases |moves|
  {
    HubOk(retry.maxAttempts, RunMoves(retry, moves).hub) && (moves == [] || AlwaysOk(retry, moves[..|moves| - 1]))
  }

  /** The atomic operation that a move amounts to, if any. */
  function Commits(r: Race, move: Move): seq<Op> {
    match move
    case Atomic(op) => [op]
    case Continue(id) =>
      if id !in r.calls || r.calls[id].delivery !in r.hub.deliveries then []
      else (match r.calls[id]
            case Recording(p, d, attempt, read) =>
              if (d, read.attemptCount + 1) in r.hub.attempts then [] else [RecordOp(p, d, attempt)]
            case Checking(_, _, _, _) => []
            case Reviving(p, d, at, _) =>
              if r.hub.deliveries[d].status == DeadLetter then [RedeliverOp(p, d, at)] else [])
    case _ => []
  }

  function Linear(retry: RetryPolicy, moves: seq<Move>): seq<Op>
    decreases |moves|
  {
    if moves == [] then []
    else
      var n := |moves| - 1;
      Linear(retry, moves[..n]) + Commits(RunMoves(retry, moves[..n]), moves[n])
  }

  predicate CallOk(m: int, h: Hub, call: Unfinished) {
    Remembers(m, h, call.project, call.delivery, call.read)
    && (call.Recording? ==> call.read.status == Processing)
  }

  ghost predicate RaceOk(m: int, r: Race) {
    HubOk(m, r.hub) && forall id :: id in r.calls ==> CallOk(m, r.hub, r.calls[id])
  }

  lemma CallsStay(m: int, r: Race, u: Hub)
    requires RaceOk(m, r) && Evolves(r.hub, u)
    ensures forall id :: id in r.calls ==> CallOk(m, u, r.calls[id])
  {
    hide HubOk, DeliveryOk;
  }

  /** A move that is not too late keeps everything and is its atomic operation, or none; one
      that is too late breaks the invariant. */
  lemma StepIsAtomic(retry: RetryPolicy, r: Race, move: Move)
    requires retry.maxAttempts >= 1 && RaceOk(retry.maxAttempts, r)
    ensures HubOk(retry.maxAttempts, Step(retry, r, move).hub) <==> !TooLate(r, move)
    ensures !TooLate(r, move) ==> RaceOk(retry.maxAttempts, Step(retry, r, move))
    ensures !TooLate(r, move) ==>
              Step(retry, r, move).hub
              == if Commits(r, move) == [] then r.hub else Apply(retry, r.hub, Commits(r, move)[0])
    ensures |Commits(r, move)| <= 1
  {
    hide HubOk, Evolves, Remembers, WriteRecord, WriteRedelivery, RecordResult, Redeliver;
    var m, h := retry.maxAttempts, r.hub;
    EvolvesRefl(h);
    ReadsRemember(m, h);
    match move
    case Atomic(op) =>
      ApplyKeeps(retry, h, op);
      CallsStay(m, r, Apply(retry, h, op));
    case Continue(id) =>
      if id in r.calls {
        RememberedRow(m, r, id);
        ContinueIsAtomic(retry, r, id);
      }
    case _ =>
  }

  lemma RememberedRow(m: int, r: Race, id: Id)
    requires RaceOk(m, r) && id in r.calls
    ensures CallOk(m, r.hub, r.calls[id]) && OwnDelivery(r.hub, r.calls[id].project, r.calls[id].delivery)
  {
    hide HubOk, DeliveryOk;
  }

  lemma ReadsRemember(m: int, h: Hub)
    requires HubOk(m, h)
    ensures forall p, d :: OwnDelivery(h, p, d) ==> Remembers(m, h, p, d, h.deliveries[d])
  {
    hide DeliveryOk, Numbered, LinksOk;
  }

  lemma ContinueIsAtomic(retry: RetryPolicy, r: Race, id: Id)
    requires retry.maxAttempts >= 1 && RaceOk(retry.maxAttempts, r) && id in r.calls
    requires CallOk(retry.maxAttempts, r.hub, r.calls[id])
    requires OwnDelivery(r.hub, r.calls[id].project, r.calls[id].delivery)
    ensures var u := Step(retry, r, Continue(id));
            && (HubOk(retry.maxAttempts, u.hub) <==> !TooLate(r, Continue(id)))
            && (!TooLate(r, Continue(id)) ==>
                  RaceOk(retry.maxAttempts, u)
                  && u.hub == if Commits(r, Continue(id)) == [] then r.hub
                              else Apply(retry, r.hub, Commits(r, Continue(id))[0]))
  {
    hide HubOk, Evolves, Remembers, RecordResult, Redeliver, WriteRedelivery;
    var m, h := retry.maxAttempts, r.hub;
    match r.calls[id]
    case Recording(p, d, attempt, read) =>
      if (d, read.attemptCount + 1) !in h.attempts {
        WriteRecordKeepsIff(m, h, p, d, read, retry, attempt);
        if h.deliveries[d].status != Cancelled {
          ApplyKeeps(retry, h, RecordOp(p, d, attempt));
          CallsStay(m, r, Apply(retry, h, RecordOp(p, d, attempt)));
        }
      }
    case Checking(p, d, at, read) =>
    case Reviving(p, d, at, read) =>
      WriteRedeliveryKeepsIff(m, h, p, d, at);
      if !Orphaned(h, d) && h.deliveries[d].status == DeadLetter {
        ApplyKeeps(retry, h, RedeliverOp(p, d, at));
        CallsStay(m, r, Apply(retry, h, RedeliverOp(p, d, at)));
      }
  }

  lemma RunOneMore(retry: RetryPolicy, h: Hub, ops: seq<Op>, op: Op)
    ensures Run(retry, h, ops + [op]) == Apply(retry, Run(retry, h, ops), op)
  {
    hide Apply;
    assert (ops + [op])[..|ops|] == ops;
  }

  /** A run in which no write comes too late is a run of atomic operations, so everything
      that holds of those holds of it. */
  lemma {:induction false} SplitRunIsAtomic(retry: RetryPolicy, moves: seq<Move>)
    requires retry.maxAttempts >= 1 && NeverTooLate(retry, moves)
    ensures RaceOk(retry.maxAttempts, RunMoves(retry, moves))
    ensures RunMoves(retry, moves).hub == Run(retry, EMPTY_HUB, Linear(retry, moves))
    decreases |moves|
  {
    hide HubOk, Step, Commits, TooLate, Apply;
    if moves == [] {
      ReachableHubOk(retry, []);
    } else {
      var n := |moves| - 1;
      var before := RunMoves(retry, moves[..n]);
      SplitRunIsAtomic(retry, moves[..n]);
      StepIsAtomic(retry, before, moves[n]);
      var op := Commits(before, moves[n]);
      if op == [] {
        assert Linear(retry, moves) == Linear(retry, moves[..n]);
      } else {
        assert op == [op[0]];
        RunOneMore(retry, EMPTY_HUB, Linear(retry, moves[..n]), op[0]);
      }
    }
  }

  /** Over any run with any number of split records and redeliveries: the invariant holds
      after every move exactly if no write comes too late. */
  lemma {:induction false} SplitRunsKeepIff(retry: RetryPolicy, moves: seq<Move>)
    requires retry.maxAttempts >= 1
    ensures AlwaysOk(retry, moves) <==> NeverTooLate(retry, moves)
    decreases |moves|
  {
    hide HubOk, Step, TooLate;
    if moves == [] {
      SplitRunIsAtomic(retry, moves);
    } else {
      var n := |moves| - 1;
      SplitRunsKeepIff(retry, moves[..n]);
      if NeverTooLate(retry, moves[..n]) {
        SplitRunIsAtomic(retry, moves[..n]);
        StepIsAtomic(retry, RunMoves(retry, moves[..n]), moves[n]);
      }
    }
  }

  // ---------------------------------------------------------------- runs that get there

  const WATCHER := Subscription(1, {"*"}, 0, None)
  const CREATED := WebhookEvent(3, 1, "policy.created", 0)
  const FAILING := Attempt(0, 0, HttpError)

  function Arriving(): seq<Move> {
    [Atomic(SubscribeOp(2, WATCHER)), Atomic(PublishOp(CREATED, i => i)), Atomic(ClaimOp(0, 1, 60))]
  }

  lemma OneMoveMore(retry: RetryPolicy, moves: seq<Move>, move: Move)
    ensures RunMoves(retry, moves + [move]) == Step(retry, RunMoves(retry, moves), move)
    ensures NeverTooLate(retry, moves + [move]) <==> NeverTooLate(retry, moves) && !TooLate(RunMoves(retry, moves), move)
  {
    hide Step, TooLate;
    assert (moves + [move])[..|moves|] == moves;
  }

  /** From the empty hub, one event and one claim: delivery 0 is being processed. */
  lemma Claims(retry: RetryPolicy)
    ensures var r := RunMoves(retry, Arriving());
            r.calls == map[] && Reads(r.hub, 1, 0, Processing) && NeverTooLate(retry, Arriving())
            && r.hub.deliveries[0].subscriptionId == 2 && ActiveSubscription(r.hub, 2)
            && r.hub.subscriptions[2].projectId == 1 && r.hub.attempts == map[]
            && r.hub.deliveries[0].attemptCount == 0 && r.hub.deliveries[0].failureCount == 0
  {
    hide Claim, Publish, RunMoves, NeverTooLate;
    RunsNothing(retry);
    var one := EMPTY_HUB.(subscriptions := map[2 := WATCHER]);
    var two := Apply(retry, one, PublishOp(CREATED, i => i));
    var moves := Arriving();
    OneMoveMore(retry, [], moves[0]);
    OneMoveMore(retry, [moves[0]], moves[1]);
    OneMoveMore(retry, [moves[0], moves[1]], moves[2]);
    assert [] + [moves[0]] == [moves[0]] && [moves[0]] + [moves[1]] == [moves[0], moves[1]];
    assert [moves[0], moves[1]] + [moves[2]] == moves;
    Published(one);
    ClaimedFirst(two);
  }

  lemma RunsNothing(retry: RetryPolicy)
    ensures RunMoves(retry, []) == Race(EMPTY_HUB, map[]) && NeverTooLate(retry, [])
  {
  }

  lemma Published(h: Hub)
    requires h == EMPTY_HUB.(subscriptions := map[2 := WATCHER])
    ensures Publish(h, CREATED, i => i).Some?
    ensures Publish(h, CREATED, i => i).value
            == h.(events := map[3 := CREATED], deliveries := map[0 := FirstDelivery(CREATED, 2)])
  {
    assert ActiveOf(h, 1) == {2};
    SortByIs({2}, CreationTimes(h), [2]);
    var start := h.(events := h.events[CREATED.eventId := CREATED]);
    assert [2][..0] == [];
    assert FanOut(start, CREATED, [], i => i) == Some(start);
  }

  lemma ClaimedFirst(h: Hub)
    requires h.subscriptions == map[2 := WATCHER] && h.deliveries == map[0 := FirstDelivery(CREATED, 2)]
    ensures var u := Claim(h, 0, 1, 60);
            Reads(u, 1, 0, Processing) && u.attempts == h.attempts && u.subscriptions == h.subscriptions
            && u.deliveries[0].attemptCount == 0 && u.deliveries[0].failureCount == 0
            && u.deliveries[0].subscriptionId == 2
  {
    hide Selected;
    var ready := CancelAbandoned(h, 0);
    assert ready.deliveries[0] == FirstDelivery(CREATED, 2);
    assert Claimable(ready, 0, 0);
    var rows := Selected(ready, 0, 1);
    ClaimSelects(ready, 0, 1, 0);
    assert forall e :: e in ready.deliveries ==> e == 0;
    assert |rows| == 1 ==> rows == [rows[0]] && rows[0] in rows;
  }

  function Overtaken(attempt: Attempt): seq<Move> {
    Arriving() + [StartRecord(9, 1, 0, attempt)] + [Atomic(CancelOp(1, 0))]
  }

  lemma IsOvertaken(retry: RetryPolicy, attempt: Attempt)
    ensures var r := RunMoves(retry, Overtaken(attempt));
            && NeverTooLate(retry, Overtaken(attempt)) && TooLate(r, Continue(9))
  {
    hide RunMoves, NeverTooLate;
    var moves := Arriving();
    Claims(retry);
    OneMoveMore(retry, moves, StartRecord(9, 1, 0, attempt));
    OneMoveMore(retry, moves + [StartRecord(9, 1, 0, attempt)], Atomic(CancelOp(1, 0)));
  }

  /** Cancelled between the worker's read and its write, the delivery keeps no count of the
      attempt that is recorded. */
  lemma LostAttemptIsReached(retry: RetryPolicy, attempt: Attempt)
    requires retry.maxAttempts >= 1
    ensures !HubOk(retry.maxAttempts, RunMoves(retry, Overtaken(attempt) + [Continue(9)]).hub)
  {
    hide RunMoves, NeverTooLate, RaceOk, HubOk, Step, TooLate;
    var moves := Overtaken(attempt);
    IsOvertaken(retry, attempt);
    SplitRunIsAtomic(retry, moves);
    OneMoveMore(retry, moves, Continue(9));
    StepIsAtomic(retry, RunMoves(retry, moves), Continue(9));
  }

  function Reconsidering(at: Instant): seq<Move> {
    Arriving() + [Atomic(RecordOp(1, 0, FAILING))] + [StartRedelivery(9, 1, 0, at)] + [Continue(9)]
  }

  /** With one attempt allowed, the delivery is a dead letter after it fails; a redelivery
      finds its subscription active. */
  lemma Reconsiders(retry: RetryPolicy, at: Instant)
    requires retry.maxAttempts == 1
    ensures var r := RunMoves(retry, Reconsidering(at));
            && NeverTooLate(retry, Reconsidering(at)) && Redeliver(r.hub, 1, 0, at).Ok?
            && r.hub.deliveries[0].subscriptionId == 2
            && 9 in r.calls && r.calls[9].Reviving? && r.calls[9].delivery == 0 && r.calls[9].at == at
  {
    hide RunMoves, NeverTooLate;
    var moves := Arriving();
    Claims(retry);
    OneMoveMore(retry, moves, Atomic(RecordOp(1, 0, FAILING)));
    moves := moves + [Atomic(RecordOp(1, 0, FAILING))];
    OneMoveMore(retry, moves, StartRedelivery(9, 1, 0, at));
    moves := moves + [StartRedelivery(9, 1, 0, at)];
    OneMoveMore(retry, moves, Continue(9));
  }

  /** Its subscription disabled between look-up and write, the redelivery leaves a delivery
      that waits for nobody. */
  lemma WaitingOnDisabledIsReached(retry: RetryPolicy, at: Instant)
    requires retry.maxAttempts == 1
    ensures !HubOk(1, RunMoves(retry, Reconsidering(at) + [Atomic(DisableOp(1, 2, at))] + [Continue(9)]).hub)
  {
    hide RunMoves, NeverTooLate, RaceOk, HubOk, Disable, WriteRedelivery, Redeliver;
    var moves := Reconsidering(at);
    Reconsiders(retry, at);
    SplitRunIsAtomic(retry, moves);
    RaceIsOk(1, RunMoves(retry, moves));
    DisabledInBetweenBreaks(1, RunMoves(retry, moves).hub, 1, 0, at);
    OneMoveMore(retry, moves, Atomic(DisableOp(1, 2, at)));
    OneMoveMore(retry, moves + [Atomic(DisableOp(1, 2, at))], Continue(9));
  }

  lemma RaceIsOk(m: int, r: Race)
    requires RaceOk(m, r)
    ensures HubOk(m, r.hub)
  {
  }
}
