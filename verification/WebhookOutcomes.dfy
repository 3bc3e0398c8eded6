/** What each operation does to each row, in terms of the stored columns, and what decides
    whether a delivery counts as delivered. */
module WebhookOutcomes {
  import opened Ordering
  import opened Integrity
  import opened Webhooks
  import opened WebhookInvariants

  /** Only delivery d may differ. */
  ghost predicate OthersStay(h: Hub, u: Hub, d: Id) {
    && u.subscriptions == h.subscriptions && u.events == h.events && u.deliveries.Keys == h.deliveries.Keys
    && forall e :: e in h.deliveries && e != d ==> u.deliveries[e] == h.deliveries[e]
  }

  /** The subscription is of this project and has not been disabled. */
  predicate Serves(h: Hub, p: Id, s: Id) {
    s in h.subscriptions && h.subscriptions[s].projectId == p && h.subscriptions[s].disabledAt.None?
  }

  // ---------------------------------------------------------------- recording a result

  function Doubled(n: nat): nat {
    if n == 0 then 1 else Doubled(n - 1) + Doubled(n - 1)
  }

  lemma {:induction false} PowerIsDoubling(n: nat)
    ensures PowerOfTwo(n) == Doubled(n)
  {
    if n > 0 {
      PowerIsDoubling(n - 1);
    }
  }

  /** min(base * 2^failures, max) seconds. */
  function BackOff(retry: RetryPolicy, failures: nat): int {
    var delay := retry.baseSeconds * Doubled(failures);
    if delay > retry.maxSeconds then retry.maxSeconds else delay
  }

  /** Exactly which status a recorded result leads to, and what else it changes: a success
      delivers, a failure cancels on an inactive subscription, is final after the last attempt,
      and otherwise schedules the next one. */
  lemma RecordMeans(h: Hub, p: Id, d: Id, retry: RetryPolicy, attempt: Attempt)
    requires RecordResult(h, p, d, retry, attempt).Ok?
    ensures d in h.deliveries && h.deliveries[d].status == Processing && h.deliveries[d].projectId == p
    ensures var u := RecordResult(h, p, d, retry, attempt).value;
            var (row, active) := (h.deliveries[d], Serves(h, p, h.deliveries[d].subscriptionId));
            && OthersStay(h, u, d) && u.attempts == h.attempts[(d, row.attemptCount + 1) := attempt]
            && (u.deliveries[d].status == Delivered <==> attempt.outcome == Success)
            && (u.deliveries[d].status == Cancelled <==> attempt.outcome != Success && !active)
            && (u.deliveries[d].status == DeadLetter
                <==> attempt.outcome != Success && active && row.failureCount + 1 >= retry.maxAttempts)
            && (u.deliveries[d].status == RetryScheduled
                <==> attempt.outcome != Success && active && row.failureCount + 1 < retry.maxAttempts)
            && u.deliveries[d]
               == row.(status := u.deliveries[d].status, attemptCount := row.attemptCount + 1,
                       failureCount := if attempt.outcome == Success then 0 else row.failureCount + 1,
                       deliveredAt := if attempt.outcome == Success then Some(attempt.completedAt) else None,
                       nextAttemptAt := if u.deliveries[d].status != RetryScheduled then None
                                        else Some(attempt.completedAt + BackOff(retry, row.failureCount) * 1_000_000),
                       leaseExpiresAt := None)
  {
    PowerIsDoubling(h.deliveries[d].failureCount);
  }

  /** A result is refused exactly for a delivery that is not there or not being processed. */
  lemma RecordRefusedIff(h: Hub, p: Id, d: Id, retry: RetryPolicy, attempt: Attempt)
    requires Numbered(h)
    ensures var (own, r) := (d in h.deliveries && h.deliveries[d].projectId == p, RecordResult(h, p, d, retry, attempt));
            && (r == Err(DeliveryNotFound) <==> !own)
            && (own && h.deliveries[d].status != Processing ==> r == Err(DeliveryState(h.deliveries[d].status)))
            && (own && h.deliveries[d].status == Processing <==> r.Ok?)
  {
  }

  // ---------------------------------------------------------------- redelivery, cancellation, disabling

  /** A redelivery starts a dead letter of an active subscription over, due at once. */
  lemma RedeliverMeans(h: Hub, p: Id, d: Id, at: Instant)
    ensures var (own, r) := (d in h.deliveries && h.deliveries[d].projectId == p, Redeliver(h, p, d, at));
            && (r == Err(DeliveryNotFound) <==> !own)
            && (own && h.deliveries[d].status != DeadLetter ==> r == Err(NotRedeliverable(h.deliveries[d].status)))
            && (r.Ok? <==> own && h.deliveries[d].status == DeadLetter && Serves(h, p, h.deliveries[d].subscriptionId))
            && (own && h.deliveries[d].status == DeadLetter && r.Err? ==>
                  var s := h.deliveries[d].subscriptionId;
                  r.error == if s in h.subscriptions && h.subscriptions[s].projectId == p then SubscriptionDisabled
                             else SubscriptionNotFound)
    ensures Redeliver(h, p, d, at).Ok? ==>
              var u := Redeliver(h, p, d, at).value;
              && OthersStay(h, u, d) && u.attempts == h.attempts
              && u.deliveries[d] == h.deliveries[d].(status := Pending, failureCount := 0, nextAttemptAt := Some(at),
                                      redeliveryCount := h.deliveries[d].redeliveryCount + 1,
                                      leaseExpiresAt := None, deliveredAt := None)
  {
  }

  /** A worker cancels only what is being processed. */
  lemma CancelMeans(h: Hub, p: Id, d: Id)
    ensures var (own, r) := (d in h.deliveries && h.deliveries[d].projectId == p, Cancel(h, p, d));
            && (r == Err(DeliveryNotFound) <==> !own) && (own <==> r.Ok?)
            && (r.Ok? ==> && OthersStay(h, r.value, d) && r.value.attempts == h.attempts
                          && r.value.deliveries[d]
                             == if h.deliveries[d].status == Processing
                                then h.deliveries[d].(status := Cancelled, nextAttemptAt := None, leaseExpiresAt := None)
                                else h.deliveries[d])
  {
  }

  /** Disabling a subscription cancels exactly the deliveries that wait for it, and only the
      first time. */
  lemma DisableMeans(h: Hub, p: Id, s: Id, at: Instant)
    ensures var (own, r) := (s in h.subscriptions && h.subscriptions[s].projectId == p, Disable(h, p, s, at));
            && (if own then r.Ok? else r == Err(SubscriptionNotFound))
            && (own && h.subscriptions[s].disabledAt.Some? ==> r.value == h)
    ensures Disable(h, p, s, at).Ok? && h.subscriptions[s].disabledAt.None? ==>
              var u := Disable(h, p, s, at).value;
              && u.subscriptions == h.subscriptions[s := h.subscriptions[s].(disabledAt := Some(at))]
              && u.events == h.events && u.attempts == h.attempts && u.deliveries.Keys == h.deliveries.Keys
              && forall d :: d in h.deliveries ==>
                   var row := h.deliveries[d];
                   u.deliveries[d] == if row.projectId == p && row.subscriptionId == s
                                         && (row.status == Pending || row.status == RetryScheduled)
                                      then row.(status := Cancelled, nextAttemptAt := None, leaseExpiresAt := None) else row
  {
  }

  // ---------------------------------------------------------------- claiming

  /** Due: waiting and its time has come, or its worker's lease is over. */
  predicate Ready(row: Delivery, now: Instant) {
    || ((row.status == Pending || row.status == RetryScheduled)
        && row.nextAttemptAt.Some? && row.nextAttemptAt.value <= now)
    || Abandoned(row, now)
  }

  predicate Abandoned(row: Delivery, now: Instant) {
    row.status == Processing && row.leaseExpiresAt.Some? && row.leaseExpiresAt.value <= now
  }

  predicate Eligible(h: Hub, d: Id, now: Instant) {
    && d in h.deliveries && h.deliveries[d].subscriptionId in h.subscriptions
    && h.subscriptions[h.deliveries[d].subscriptionId].disabledAt.None? && Ready(h.deliveries[d], now)
  }

  predicate OnDisabled(h: Hub, row: Delivery) {
    row.subscriptionId in h.subscriptions && h.subscriptions[row.subscriptionId].disabledAt.Some?
  }

  function DueAt(row: Delivery): Instant {
    match row.nextAttemptAt
    case Some(at) => at
    case None => if row.leaseExpiresAt.Some? then row.leaseExpiresAt.value else 0
  }

  lemma SameEligible(h: Hub, now: Instant, d: Id)
    ensures var ready := CancelAbandoned(h, now);
            && (Claimable(ready, d, now) <==> Eligible(h, d, now))
            && (Eligible(h, d, now) ==> d in ready.deliveries && ready.deliveries[d] == h.deliveries[d])
  {
  }

  lemma ClaimedAreSelected(h: Hub, now: Instant, limit: int)
    ensures var selected := Selected(CancelAbandoned(h, now), now, limit);
            && |ClaimedIds(h, now, limit)| == |selected|
            && forall d :: d in ClaimedIds(h, now, limit) <==> d in selected
  {
    var ready := CancelAbandoned(h, now);
    var selected := Selected(ready, now, limit);
    var chosen := set d | d in ready.deliveries && d in selected;
    SelectedAreClaimable(ready, now, limit);
    assert forall d :: d in chosen <==> d in selected;
    DistinctSelected(ready, now, limit);
    ListedLength(selected, chosen);
    ListedLength(ClaimedIds(h, now, limit), chosen);
  }

  lemma DistinctSelected(h: Hub, now: Instant, limit: int)
    ensures forall i, j :: 0 <= i < j < |Selected(h, now, limit)| ==> Selected(h, now, limit)[i] != Selected(h, now, limit)[j]
  {
  }

  /** A claim cancels the abandoned deliveries of disabled subscriptions, leases the claimed
      ones and touches nothing else. */
  lemma ClaimMeans(h: Hub, now: Instant, limit: int, leaseSeconds: int)
    ensures var u := Claim(h, now, limit, leaseSeconds);
            && u.subscriptions == h.subscriptions && u.events == h.events && u.attempts == h.attempts
            && u.deliveries.Keys == h.deliveries.Keys
            && forall d :: d in h.deliveries ==>
                 var row := h.deliveries[d];
                 u.deliveries[d] == if Abandoned(row, now) && OnDisabled(h, row)
                                    then row.(status := Cancelled, nextAttemptAt := None, leaseExpiresAt := None)
                                    else if d in ClaimedIds(h, now, limit)
                                    then row.(status := Processing, leaseExpiresAt := Some(now + leaseSeconds * 1_000_000))
                                    else row
  {
    hide Selected, ClaimedIds;
    ClaimedAreSelected(h, now, limit);
    var ready := CancelAbandoned(h, now);
    SelectedAreClaimable(ready, now, limit);
    forall d | d in Selected(ready, now, limit) ensures Eligible(h, d, now) {
      SameEligible(h, now, d);
    }
  }

  /** What is claimed: eligible deliveries only, at most limit, and all of them unless limit
      others are due earlier. */
  lemma ClaimTakesEarliest(h: Hub, now: Instant, limit: int, d: Id)
    ensures d in ClaimedIds(h, now, limit) ==> Eligible(h, d, now)
    ensures limit >= 0 ==> |ClaimedIds(h, now, limit)| <= limit
    ensures Eligible(h, d, now) && d !in ClaimedIds(h, now, limit) ==>
              limit >= 0 && |ClaimedIds(h, now, limit)| == limit
              && forall e :: e in ClaimedIds(h, now, limit) ==>
                   e in h.deliveries
                   && (DueAt(h.deliveries[e]) < DueAt(h.deliveries[d])
                       || (DueAt(h.deliveries[e]) == DueAt(h.deliveries[d]) && e < d))
  {
    hide Selected, ClaimedIds, CancelAbandoned, Claimable;
    var ready := CancelAbandoned(h, now);
    ClaimedAreSelected(h, now, limit);
    ClaimSelects(ready, now, limit, d);
    SameEligible(h, now, d);
    forall e | e in ClaimedIds(h, now, limit)
      ensures Eligible(h, e, now) && e in ready.deliveries && ready.deliveries[e] == h.deliveries[e]
    {
      SelectedAreClaimable(ready, now, limit);
      SameEligible(h, now, e);
    }
    assert forall e :: e in ready.deliveries ==> DueTimes(ready)[e] == DueAt(ready.deliveries[e]);
  }

  // ---------------------------------------------------------------- fan-out

  predicate Subscribed(h: Hub, event: WebhookEvent, s: Id) {
    && s in h.subscriptions && h.subscriptions[s].projectId == event.projectId && h.subscriptions[s].disabledAt.None?
    && ("*" in h.subscriptions[s].selectors || event.eventType in h.subscriptions[s].selectors)
  }

  function Fresh(event: WebhookEvent, s: Id): Delivery {
    Delivery(event.eventId, s, event.projectId, Pending, 0, 0, 0, Some(event.occurredAt), None, None, event.occurredAt)
  }

  /** Publishing stores the event and, for each subscriber, one first delivery that is due at
      once; nothing that was there changes. */
  lemma PublishMeans(h: Hub, event: WebhookEvent, uuids: nat -> Id)
    requires Publish(h, event, uuids).Some?
    ensures var u := Publish(h, event, uuids).value;
            && event.eventId !in h.events && u.events == h.events[event.eventId := event]
            && u.subscriptions == h.subscriptions && u.attempts == h.attempts
            && (forall d :: d in h.deliveries ==> d in u.deliveries && u.deliveries[d] == h.deliveries[d])
            && (forall d :: d in u.deliveries && d !in h.deliveries ==>
                  exists s :: Subscribed(h, event, s) && u.deliveries[d] == Fresh(event, s))
            && (forall s :: Subscribed(h, event, s) ==>
                  exists d :: d in u.deliveries && d !in h.deliveries && u.deliveries[d] == Fresh(event, s))
  {
    hide FanOut, ActiveRows;
    var start := h.(events := h.events[event.eventId := event]);
    var (rows, u) := (ActiveRows(h, event.projectId), Publish(h, event, uuids).value);
    FanOutAdds(start, event, rows, uuids);
    ActiveRowsAre(h, event.projectId);
    forall d | d in u.deliveries && d !in h.deliveries
      ensures exists s :: Subscribed(h, event, s) && u.deliveries[d] == Fresh(event, s)
    {
      var i :| 0 <= i < |rows| && Addressed(h.subscriptions, event, rows[i]) && d == uuids(i) && DeliveredBy(u, event, d, rows[i]);
      assert rows[i] in rows;
      assert Subscribed(h, event, rows[i]);
    }
    forall s | Subscribed(h, event, s)
      ensures exists d :: d in u.deliveries && d !in h.deliveries && u.deliveries[d] == Fresh(event, s)
    {
      assert s in rows;
      var i :| 0 <= i < |rows| && rows[i] == s;
      assert Addressed(h.subscriptions, event, rows[i]);
      assert DeliveredBy(u, event, uuids(i), rows[i]);
    }
  }

  // ---------------------------------------------------------------- what decides delivery

  /** Of all recorded attempts exactly the last one of a delivered delivery succeeded. */
  ghost predicate LastDecides(h: Hub) {
    && (forall d, n :: (d, n) in h.attempts ==>
          d in h.deliveries
          && (h.attempts[(d, n)].outcome == Success
              <==> h.deliveries[d].status == Delivered && n == h.deliveries[d].attemptCount))
    && (forall d :: d in h.deliveries && h.deliveries[d].status == Delivered ==>
          (d, h.deliveries[d].attemptCount) in h.attempts
          && h.deliveries[d].deliveredAt == Some(h.attempts[(d, h.deliveries[d].attemptCount)].completedAt))
  }

  /** Rows may move, but neither into nor out of DELIVERED, and no attempt is added. */
  ghost predicate NoneRecorded(h: Hub, u: Hub) {
    && u.attempts == h.attempts
    && (forall d :: d in h.deliveries ==> d in u.deliveries)
    && (forall d :: d in u.deliveries ==>
          if d in h.deliveries
          then u.deliveries[d].attemptCount == h.deliveries[d].attemptCount
               && u.deliveries[d].deliveredAt == h.deliveries[d].deliveredAt
               && (u.deliveries[d].status == Delivered <==> h.deliveries[d].status == Delivered)
          else u.deliveries[d].status != Delivered)
  }

  lemma NoneRecordedDecides(h: Hub, u: Hub)
    requires LastDecides(h) && NoneRecorded(h, u)
    ensures LastDecides(u)
  {
  }

  lemma RecordDecides(h: Hub, p: Id, d: Id, retry: RetryPolicy, attempt: Attempt)
    requires Numbered(h) && LastDecides(h) && RecordResult(h, p, d, retry, attempt).Ok?
    ensures LastDecides(RecordResult(h, p, d, retry, attempt).value)
  {
    hide RecordResult;
    RecordMeans(h, p, d, retry, attempt);
    RecordRefusedIff(h, p, d, retry, attempt);
  }

  lemma OthersRecordNothing(m: int, retry: RetryPolicy, h: Hub, op: Op)
    requires HubOk(m, h) && !op.RecordOp?
    ensures NoneRecorded(h, Apply(retry, h, op))
  {
    hide HubOk, Subscribe, Disable, Publish, Claim, ClaimedIds, Cancel, Redeliver;
    match op
    case SubscribeOp(s, row) => SubscribeLeavesDeliveries(h, s, row);
    case DisableOp(p, s, at) => DisableMeans(h, p, s, at);
    case PublishOp(event, uuids) => if Publish(h, event, uuids).Some? { PublishMeans(h, event, uuids); }
    case ClaimOp(now, limit, lease) =>
      ClaimMeans(h, now, limit, lease);
      forall d | d in ClaimedIds(h, now, limit) ensures Eligible(h, d, now) {
        ClaimTakesEarliest(h, now, limit, d);
      }
    case CancelOp(p, d) => CancelMeans(h, p, d);
    case RedeliverOp(p, d, at) =>
      RedeliverMeans(h, p, d, at);
      if d in h.deliveries {
        DeadLetterWasNotDelivered(m, h, d);
      }
  }

  lemma SubscribeLeavesDeliveries(h: Hub, s: Id, row: Subscription)
    ensures Subscribe(h, s, row).Some? <==> s !in h.subscriptions && row.disabledAt.None?
    ensures Subscribe(h, s, row).Some? ==>
              Subscribe(h, s, row).value == Hub(h.subscriptions[s := row], h.events, h.deliveries, h.attempts)
  {
  }

  lemma DeadLetterWasNotDelivered(m: int, h: Hub, d: Id)
    requires HubOk(m, h) && d in h.deliveries
    ensures h.deliveries[d].status == DeadLetter ==> h.deliveries[d].deliveredAt.None?
  {
    hide Numbered, LinksOk, Conserved;
  }

  lemma {:induction false} RunDecides(retry: RetryPolicy, h: Hub, ops: seq<Op>)
    requires retry.maxAttempts >= 1 && HubOk(retry.maxAttempts, h) && LastDecides(h)
    ensures LastDecides(Run(retry, h, ops))
    decreases |ops|
  {
    hide HubOk, Apply, LastDecides;
    if ops != [] {
      var n := |ops| - 1;
      RunDecides(retry, h, ops[..n]);
      RunKeeps(retry, h, ops[..n]);
      ApplyDecides(retry, Run(retry, h, ops[..n]), ops[n]);
    }
  }

  lemma ApplyDecides(retry: RetryPolicy, h: Hub, op: Op)
    requires retry.maxAttempts >= 1 && HubOk(retry.maxAttempts, h) && LastDecides(h)
    ensures LastDecides(Apply(retry, h, op))
  {
    hide LastDecides, RowsOk, LinksOk, RecordResult;
    if op.RecordOp? {
      if RecordResult(h, op.project, op.delivery, retry, op.attempt).Ok? {
        RecordDecides(h, op.project, op.delivery, retry, op.attempt);
      }
    } else {
      hide Apply;
      OthersRecordNothing(retry.maxAttempts, retry, h, op);
      NoneRecordedDecides(h, Apply(retry, h, op));
    }
  }

  lemma EmptyHubOk(m: int)
    ensures HubOk(m, EMPTY_HUB) && LastDecides(EMPTY_HUB)
  {
  }

  /** In every reachable state a delivery counts as delivered exactly if its last attempt
      succeeded; it was delivered when that attempt ended, and all attempts before it failed. */
  lemma DeliveredIffLastSucceeded(retry: RetryPolicy, ops: seq<Op>, d: Id)
    requires retry.maxAttempts >= 1 && d in Run(retry, EMPTY_HUB, ops).deliveries
    ensures var h := Run(retry, EMPTY_HUB, ops);
            var (row, last) := (h.deliveries[d], (d, h.deliveries[d].attemptCount));
            && (row.status == Delivered <==> row.attemptCount >= 1 && last in h.attempts && h.attempts[last].outcome == Success)
            && (row.status == Delivered ==> last in h.attempts && row.deliveredAt == Some(h.attempts[last].completedAt))
            && forall n :: 1 <= n < row.attemptCount ==> (d, n) in h.attempts && h.attempts[(d, n)].outcome != Success
  {
    hide Run, RowsOk, LinksOk;
    EmptyHubOk(retry.maxAttempts);
    RunDecides(retry, EMPTY_HUB, ops);
    ReachableHubOk(retry, ops);
  }
}
