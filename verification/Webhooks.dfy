/** app/storage/webhooks.py: subscriptions, events, deliveries and attempts, and every
    repository operation as one atomic transition. WebhookRepository.dfy changes the tables
    in place and is proved equal to these functions, or to their split forms in
    WebhookRaces.dfy. */
module Webhooks {
  import opened Ordering
  import opened Integrity

  const SECOND := 1_000_000

  /** An active subscription is one without a disabled_at (its table CHECK). */
  datatype Subscription = Subscription(projectId: Id, selectors: set<string>, createdAt: Instant,
                                       disabledAt: Option<Instant>)

  datatype WebhookEvent = WebhookEvent(eventId: Id, projectId: Id, eventType: string, occurredAt: Instant)

  datatype DeliveryStatus = Pending | Processing | RetryScheduled | Delivered | DeadLetter | Cancelled

  datatype Delivery = Delivery(eventId: Id, subscriptionId: Id, projectId: Id, status: DeliveryStatus,
                               attemptCount: nat, failureCount: nat, redeliveryCount: nat,
                               nextAttemptAt: Option<Instant>, leaseExpiresAt: Option<Instant>,
                               deliveredAt: Option<Instant>, createdAt: Instant)

  datatype DeliveryOutcome = Success | HttpError | NetworkError

  datatype Attempt = Attempt(attemptedAt: Instant, completedAt: Instant, outcome: DeliveryOutcome)

  /** attempts is keyed by its UNIQUE (delivery_id, attempt_number). */
  datatype Hub = Hub(subscriptions: map<Id, Subscription>, events: map<Id, WebhookEvent>,
                     deliveries: map<Id, Delivery>, attempts: map<(Id, int), Attempt>)

  datatype RetryPolicy = RetryPolicy(maxAttempts: int, baseSeconds: int, maxSeconds: int)

  datatype WebhookError =
    | DeliveryNotFound | DeliveryState(status: DeliveryStatus) | NotRedeliverable(status: DeliveryStatus)
    | SubscriptionNotFound | SubscriptionDisabled | MissingData | IntegrityError

  // ---------------------------------------------------------------- reads

  predicate ActiveSubscription(h: Hub, s: Id) {
    s in h.subscriptions && h.subscriptions[s].disabledAt.None?
  }

  predicate DisabledSubscription(h: Hub, s: Id) {
    s in h.subscriptions && h.subscriptions[s].disabledAt.Some?
  }

  predicate Wants(subscription: Subscription, eventType: string) {
    "*" in subscription.selectors || eventType in subscription.selectors
  }

  predicate OwnDelivery(h: Hub, p: Id, d: Id) {
    d in h.deliveries && h.deliveries[d].projectId == p
  }

  // ---------------------------------------------------------------- subscriptions

  function Subscribe(h: Hub, s: Id, subscription: Subscription): Option<Hub> {
    if s in h.subscriptions || subscription.disabledAt.Some? then None
    else Some(h.(subscriptions := h.subscriptions[s := subscription]))
  }

  function CancelledDelivery(delivery: Delivery): Delivery {
    delivery.(status := Cancelled, nextAttemptAt := None, leaseExpiresAt := None)
  }

  predicate Waiting(delivery: Delivery) {
    delivery.status == Pending || delivery.status == RetryScheduled
  }

  function CancelWaiting(h: Hub, p: Id, s: Id): map<Id, Delivery> {
    map d | d in h.deliveries ::
      if h.deliveries[d].projectId == p && h.deliveries[d].subscriptionId == s && Waiting(h.deliveries[d])
      then CancelledDelivery(h.deliveries[d]) else h.deliveries[d]
  }

  function Disable(h: Hub, p: Id, s: Id, at: Instant): Result<Hub, WebhookError> {
    if s !in h.subscriptions || h.subscriptions[s].projectId != p then Err(SubscriptionNotFound)
    else if h.subscriptions[s].disabledAt.Some? then Ok(h)
    else Ok(h.(subscriptions := h.subscriptions[s := h.subscriptions[s].(disabledAt := Some(at))],
               deliveries := CancelWaiting(h, p, s)))
  }

  // ---------------------------------------------------------------- event fan-out

  function ActiveOf(h: Hub, p: Id): set<Id> {
    set s | s in h.subscriptions && h.subscriptions[s].projectId == p && h.subscriptions[s].disabledAt.None?
  }

  function CreationTimes(h: Hub): map<Id, int> {
    map s | s in h.subscriptions :: h.subscriptions[s].createdAt
  }

  function FirstDelivery(event: WebhookEvent, s: Id): Delivery {
    Delivery(event.eventId, s, event.projectId, Pending, 0, 0, 0, Some(event.occurredAt), None, None, event.occurredAt)
  }

  /** INSERT INTO webhook_deliveries under its keys and its project trigger. */
  predicate Insertable(h: Hub, d: Id, delivery: Delivery) {
    && d !in h.deliveries
    && (forall e :: e in h.deliveries ==> h.deliveries[e].eventId != delivery.eventId
                                          || h.deliveries[e].subscriptionId != delivery.subscriptionId)
    && delivery.eventId in h.events && h.events[delivery.eventId].projectId == delivery.projectId
    && delivery.subscriptionId in h.subscriptions && h.subscriptions[delivery.subscriptionId].projectId == delivery.projectId
  }

  /** One delivery for each row that wants the event; ids come from a stream of UUIDs. */
  function FanOut(h: Hub, event: WebhookEvent, rows: seq<Id>, uuids: nat -> Id): Option<Hub>
    decreases |rows|
  {
    if rows == [] then Some(h)
    else
      var n := |rows| - 1;
      match FanOut(h, event, rows[..n], uuids)
      case None => None
      case Some(u) =>
        if rows[n] !in h.subscriptions || !Wants(h.subscriptions[rows[n]], event.eventType) then Some(u)
        else if Insertable(u, uuids(n), FirstDelivery(event, rows[n]))
        then Some(u.(deliveries := u.deliveries[uuids(n) := FirstDelivery(event, rows[n])]))
        else None
  }

  function ActiveRows(h: Hub, p: Id): seq<Id> {
    SortBy(ActiveOf(h, p), CreationTimes(h))
  }

  function Publish(h: Hub, event: WebhookEvent, uuids: nat -> Id): Option<Hub> {
    if event.eventId in h.events then None
    else FanOut(h.(events := h.events[event.eventId := event]), event, ActiveRows(h, event.projectId), uuids)
  }

  // ---------------------------------------------------------------- claims

  predicate LeaseOver(delivery: Delivery, now: Instant) {
    delivery.status == Processing && delivery.leaseExpiresAt.Some? && delivery.leaseExpiresAt.value <= now
  }

  /** Abandoned deliveries of subscriptions that were disabled in the meantime. */
  function CancelAbandoned(h: Hub, now: Instant): Hub {
    h.(deliveries := map d | d in h.deliveries ::
         if LeaseOver(h.deliveries[d], now) && DisabledSubscription(h, h.deliveries[d].subscriptionId)
         then CancelledDelivery(h.deliveries[d]) else h.deliveries[d])
  }

  predicate Claimable(h: Hub, d: Id, now: Instant) {
    && d in h.deliveries && ActiveSubscription(h, h.deliveries[d].subscriptionId)
    && ((Waiting(h.deliveries[d]) && h.deliveries[d].nextAttemptAt.Some? && h.deliveries[d].nextAttemptAt.value <= now)
        || LeaseOver(h.deliveries[d], now))
  }

  /** COALESCE(next_attempt_at, lease_expires_at). */
  function DueTime(delivery: Delivery): Instant {
    if delivery.nextAttemptAt.Some? then delivery.nextAttemptAt.value
    else if delivery.leaseExpiresAt.Some? then delivery.leaseExpiresAt.value else 0
  }

  function DueTimes(h: Hub): map<Id, int> {
    map d | d in h.deliveries :: DueTime(h.deliveries[d])
  }

  function ClaimableIds(h: Hub, now: Instant): set<Id> {
    set d | d in h.deliveries && Claimable(h, d, now)
  }

  /** ORDER BY due time, id LIMIT limit; SQLite takes a negative limit for none. */
  function Selected(h: Hub, now: Instant, limit: int): seq<Id> {
    var rows := SortBy(ClaimableIds(h, now), DueTimes(h));
    if 0 <= limit < |rows| then rows[..limit] else rows
  }

  function Lease(h: Hub, ids: seq<Id>, until: Instant): Hub {
    h.(deliveries := map d | d in h.deliveries ::
         if d in ids then h.deliveries[d].(status := Processing, leaseExpiresAt := Some(until)) else h.deliveries[d])
  }

  function BirthTimes(h: Hub): map<Id, int> {
    map d | d in h.deliveries :: h.deliveries[d].createdAt
  }

  function Claim(h: Hub, now: Instant, limit: int, leaseSeconds: int): Hub {
    var ready := CancelAbandoned(h, now);
    Lease(ready, Selected(ready, now, limit), now + leaseSeconds * SECOND)
  }

  /** The deliveries a claim hands to its worker. */
  function ClaimedIds(h: Hub, now: Instant, limit: int): seq<Id> {
    var ready := CancelAbandoned(h, now);
    var chosen := set d | d in ready.deliveries && d in Selected(ready, now, limit);
    SortBy(chosen, BirthTimes(ready))
  }

  // ---------------------------------------------------------------- outcomes

  function Cancel(h: Hub, p: Id, d: Id): Result<Hub, WebhookError> {
    if !OwnDelivery(h, p, d) then Err(DeliveryNotFound)
    else if h.deliveries[d].status != Processing then Ok(h)
    else Ok(h.(deliveries := h.deliveries[d := CancelledDelivery(h.deliveries[d])]))
  }

  function PowerOfTwo(n: nat): nat {
    if n == 0 then 1 else 2 * PowerOfTwo(n - 1)
  }

  function RetrySeconds(retry: RetryPolicy, failures: nat): int
    requires failures >= 1
  {
    var delay := retry.baseSeconds * PowerOfTwo(failures - 1);
    if delay <= retry.maxSeconds then delay else retry.maxSeconds
  }

  /** The row after one more attempt; active says whether its subscription still is. */
  function AfterAttempt(delivery: Delivery, retry: RetryPolicy, active: bool, completedAt: Instant,
                        outcome: DeliveryOutcome): Delivery {
    var attempted := delivery.(attemptCount := delivery.attemptCount + 1, leaseExpiresAt := None);
    if outcome == Success then
      attempted.(status := Delivered, failureCount := 0, nextAttemptAt := None, deliveredAt := Some(completedAt))
    else
      var failed := attempted.(failureCount := delivery.failureCount + 1, nextAttemptAt := None, deliveredAt := None);
      if !active then failed.(status := Cancelled)
      else if failed.failureCount >= retry.maxAttempts then failed.(status := DeadLetter)
      else failed.(status := RetryScheduled,
                   nextAttemptAt := Some(completedAt + RetrySeconds(retry, failed.failureCount) * SECOND))
  }

  predicate OwnActive(h: Hub, p: Id, s: Id) {
    ActiveSubscription(h, s) && h.subscriptions[s].projectId == p
  }

  function RecordResult(h: Hub, p: Id, d: Id, retry: RetryPolicy, attempt: Attempt): Result<Hub, WebhookError> {
    if !OwnDelivery(h, p, d) then Err(DeliveryNotFound)
    else if h.deliveries[d].status != Processing then Err(DeliveryState(h.deliveries[d].status))
    else if (d, h.deliveries[d].attemptCount + 1) in h.attempts then Err(IntegrityError)
    else
      var row := h.deliveries[d];
      Ok(h.(attempts := h.attempts[(d, row.attemptCount + 1) := attempt],
            deliveries := h.deliveries[d := AfterAttempt(row, retry, OwnActive(h, p, row.subscriptionId),
                                                         attempt.completedAt, attempt.outcome)]))
  }

  function Redeliver(h: Hub, p: Id, d: Id, at: Instant): Result<Hub, WebhookError> {
    if !OwnDelivery(h, p, d) then Err(DeliveryNotFound)
    else if h.deliveries[d].status != DeadLetter then Err(NotRedeliverable(h.deliveries[d].status))
    else
      var s := h.deliveries[d].subscriptionId;
      if s !in h.subscriptions || h.subscriptions[s].projectId != p then Err(SubscriptionNotFound)
      else if h.subscriptions[s].disabledAt.Some? then Err(SubscriptionDisabled)
      else
        Ok(h.(deliveries := h.deliveries[d := h.deliveries[d].(status := Pending, failureCount := 0,
                redeliveryCount := h.deliveries[d].redeliveryCount + 1, nextAttemptAt := Some(at),
                leaseExpiresAt := None, deliveredAt := None)]))
  }

  // ---------------------------------------------------------------- runs

  /** One committed operation; the workers' max_attempts and delays are those of the
      deployment. Late and crashed workers are runs in which a record comes late or never. */
  datatype Op =
    | SubscribeOp(subscription: Id, row: Subscription)
    | DisableOp(project: Id, subscription: Id, at: Instant)
    | PublishOp(event: WebhookEvent, uuids: nat -> Id)
    | ClaimOp(now: Instant, limit: int, leaseSeconds: int)
    | CancelOp(project: Id, delivery: Id)
    | RecordOp(project: Id, delivery: Id, attempt: Attempt)
    | RedeliverOp(project: Id, delivery: Id, at: Instant)

  function Settle(h: Hub, r: Result<Hub, WebhookError>): Hub {
    if r.Ok? then r.value else h
  }

  function Apply(retry: RetryPolicy, h: Hub, op: Op): Hub {
    match op
    case SubscribeOp(s, row) => if Subscribe(h, s, row).Some? then Subscribe(h, s, row).value else h
    case DisableOp(p, s, at) => Settle(h, Disable(h, p, s, at))
    case PublishOp(event, uuids) => if Publish(h, event, uuids).Some? then Publish(h, event, uuids).value else h
    case ClaimOp(now, limit, lease) => Claim(h, now, limit, lease)
    case CancelOp(p, d) => Settle(h, Cancel(h, p, d))
    case RecordOp(p, d, attempt) => Settle(h, RecordResult(h, p, d, retry, attempt))
    case RedeliverOp(p, d, at) => Settle(h, Redeliver(h, p, d, at))
  }

  function Run(retry: RetryPolicy, h: Hub, ops: seq<Op>): Hub
    decreases |ops|
  {
    if ops == [] then h
    else Apply(retry, Run(retry, h, ops[..|ops| - 1]), ops[|ops| - 1])
  }

  const EMPTY_HUB := Hub(map[], map[], map[], map[])
}
