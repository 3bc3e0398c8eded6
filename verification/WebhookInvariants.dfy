/** The delivery machine over all runs: any interleaving of subscriptions, events, claims,
    outcomes, redeliveries and disablings, with workers that crash or record late. */
module WebhookInvariants {
  import opened Ordering
  import opened Integrity
  import opened Webhooks

  // ---------------------------------------------------------------- one delivery

  predicate Live(delivery: Delivery) {
    Waiting(delivery) || delivery.status == Processing
  }

  /** Which columns are set in which status. */
  predicate Shaped(delivery: Delivery) {
    && (delivery.leaseExpiresAt.Some? <==> delivery.status == Processing)
    && (delivery.deliveredAt.Some? <==> delivery.status == Delivered)
    && (delivery.nextAttemptAt.Some? <==> Live(delivery))
  }

  /** Attempt conservation: every redelivery stands for max_attempts failed attempts. */
  predicate Conserved(m: int, delivery: Delivery) {
    var spent := delivery.redeliveryCount * m;
    && (if delivery.status == Delivered
        then spent < delivery.attemptCount <= spent + m && delivery.failureCount == 0
        else delivery.attemptCount == spent + delivery.failureCount)
    && (Live(delivery) ==> delivery.failureCount < m)
    && (delivery.status == DeadLetter ==> delivery.failureCount == m)
    && delivery.failureCount <= m
  }

  predicate DeliveryOk(m: int, delivery: Delivery) {
    Shaped(delivery) && Conserved(m, delivery)
  }

  lemma FirstOk(m: int, event: WebhookEvent, s: Id)
    requires m >= 1
    ensures DeliveryOk(m, FirstDelivery(event, s))
  {
  }

  lemma CancelledOk(m: int, delivery: Delivery)
    requires DeliveryOk(m, delivery) && Live(delivery)
    ensures DeliveryOk(m, CancelledDelivery(delivery))
  {
  }

  lemma AttemptOk(m: int, delivery: Delivery, retry: RetryPolicy, active: bool, completedAt: Instant, outcome: DeliveryOutcome)
    requires m >= 1 && retry.maxAttempts == m && DeliveryOk(m, delivery) && delivery.status == Processing
    ensures DeliveryOk(m, AfterAttempt(delivery, retry, active, completedAt, outcome))
  {
  }

  lemma RedeliveredOk(m: int, delivery: Delivery, at: Instant)
    requires m >= 1 && DeliveryOk(m, delivery) && delivery.status == DeadLetter
    ensures DeliveryOk(m, delivery.(status := Pending, failureCount := 0, redeliveryCount := delivery.redeliveryCount + 1,
                                    nextAttemptAt := Some(at), leaseExpiresAt := None, deliveredAt := None))
  {
    assert (delivery.redeliveryCount + 1) * m == delivery.redeliveryCount * m + m;
  }

  // ---------------------------------------------------------------- all deliveries

  ghost predicate RowsOk(m: int, h: Hub) {
    forall d :: d in h.deliveries ==> DeliveryOk(m, h.deliveries[d])
  }

  /** Attempt rows are numbered 1 to attempt_count, without a gap. */
  ghost predicate Numbered(h: Hub) {
    forall d, n :: (d, n) in h.attempts <==> d in h.deliveries && 1 <= n <= h.deliveries[d].attemptCount
  }

  predicate Linked(h: Hub, d: Id)
    requires d in h.deliveries
  {
    var row := h.deliveries[d];
    && row.eventId in h.events && h.events[row.eventId].projectId == row.projectId
    && row.subscriptionId in h.subscriptions && h.subscriptions[row.subscriptionId].projectId == row.projectId
    && Wants(h.subscriptions[row.subscriptionId], h.events[row.eventId].eventType)
  }

  predicate SameTarget(a: Delivery, b: Delivery) {
    a.eventId == b.eventId && a.subscriptionId == b.subscriptionId
  }

  /** Each delivery belongs to one event and one subscription that asked for it, and no two
      to the same; nothing waits on a disabled subscription. */
  ghost predicate LinksOk(h: Hub) {
    && (forall d :: d in h.deliveries ==> Linked(h, d))
    && (forall d, e | d in h.deliveries && e in h.deliveries && SameTarget(h.deliveries[d], h.deliveries[e]) :: d == e)
    && (forall d :: d in h.deliveries && Waiting(h.deliveries[d]) ==> ActiveSubscription(h, h.deliveries[d].subscriptionId))
    && (forall e :: e in h.events ==> h.events[e].eventId == e)
  }

  ghost predicate HubOk(m: int, h: Hub) {
    RowsOk(m, h) && Numbered(h) && LinksOk(h)
  }

  // ---------------------------------------------------------------- direction of change

  /** Identity never changes, a delivered or cancelled delivery never changes at all, and one
      that is being processed is attempted or cancelled before anything else. */
  predicate DeliveryStep(a: Delivery, b: Delivery) {
    && b.eventId == a.eventId && b.subscriptionId == a.subscriptionId && b.projectId == a.projectId
    && b.createdAt == a.createdAt && a.attemptCount <= b.attemptCount && a.redeliveryCount <= b.redeliveryCount
    && (a.status == Delivered || a.status == Cancelled ==> b == a)
    && (a.status == Processing && b.attemptCount == a.attemptCount ==> b.status == Processing || b.status == Cancelled)
  }

  predicate SubscriptionStep(a: Subscription, b: Subscription) {
    && b.projectId == a.projectId && b.selectors == a.selectors && b.createdAt == a.createdAt
    && (a.disabledAt.Some? ==> b == a)
  }

  ghost predicate Evolves(a: Hub, b: Hub) {
    && (forall s :: s in a.subscriptions ==> s in b.subscriptions && SubscriptionStep(a.subscriptions[s], b.subscriptions[s]))
    && (forall e :: e in a.events ==> e in b.events && b.events[e] == a.events[e])
    && (forall d :: d in a.deliveries ==> d in b.deliveries && DeliveryStep(a.deliveries[d], b.deliveries[d]))
    && (forall k :: k in a.attempts ==> k in b.attempts && b.attempts[k] == a.attempts[k])
    && (forall d :: d in b.deliveries && d !in a.deliveries ==> b.deliveries[d].eventId !in a.events)
  }

  lemma EvolvesTrans(a: Hub, b: Hub, c: Hub)
    requires Evolves(a, b) && Evolves(b, c)
    ensures Evolves(a, c)
  {
  }

  // ---------------------------------------------------------------- operations on one row

  /** Replacing one row by an allowed successor keeps every link. */
  lemma RowLinksKept(h: Hub, u: Hub, d: Id)
    requires LinksOk(h) && d in h.deliveries && d in u.deliveries && u.deliveries == h.deliveries[d := u.deliveries[d]]
    requires u.subscriptions == h.subscriptions && u.events == h.events
    requires DeliveryStep(h.deliveries[d], u.deliveries[d])
    requires Waiting(u.deliveries[d]) ==> ActiveSubscription(u, u.deliveries[d].subscriptionId)
    ensures LinksOk(u)
  {
    hide Wants;
    forall e | e in u.deliveries ensures Linked(u, e) {
      assert Linked(h, e);
    }
  }

  lemma RowUpdateKeeps(m: int, h: Hub, d: Id, row: Delivery)
    requires HubOk(m, h) && d in h.deliveries && DeliveryOk(m, row) && DeliveryStep(h.deliveries[d], row)
    requires row.attemptCount == h.deliveries[d].attemptCount
    requires Waiting(row) ==> ActiveSubscription(h, row.subscriptionId)
    ensures var u := h.(deliveries := h.deliveries[d := row]); HubOk(m, u) && Evolves(h, u)
  {
    hide DeliveryOk, LinksOk;
    RowLinksKept(h, h.(deliveries := h.deliveries[d := row]), d);
  }

  lemma RecordKeeps(m: int, h: Hub, p: Id, d: Id, retry: RetryPolicy, attempt: Attempt)
    requires m >= 1 && retry.maxAttempts == m && HubOk(m, h) && RecordResult(h, p, d, retry, attempt).Ok?
    ensures var u := RecordResult(h, p, d, retry, attempt).value; HubOk(m, u) && Evolves(h, u)
  {
    hide DeliveryOk, LinksOk, Numbered, AfterAttempt;
    var row := h.deliveries[d];
    var u := RecordResult(h, p, d, retry, attempt).value;
    AttemptOk(m, row, retry, OwnActive(h, p, row.subscriptionId), attempt.completedAt, attempt.outcome);
    AttemptIsStep(row, retry, OwnActive(h, p, row.subscriptionId), attempt.completedAt, attempt.outcome);
    RowLinksKept(h, u, d);
    AttemptNumbered(h, u, d, attempt);
  }

  lemma AttemptIsStep(delivery: Delivery, retry: RetryPolicy, active: bool, completedAt: Instant, outcome: DeliveryOutcome)
    requires delivery.status == Processing
    ensures var row := AfterAttempt(delivery, retry, active, completedAt, outcome);
            && DeliveryStep(delivery, row) && row.attemptCount == delivery.attemptCount + 1
            && row.status != Processing && (Waiting(row) ==> active)
  {
  }

  lemma AttemptNumbered(h: Hub, u: Hub, d: Id, attempt: Attempt)
    requires Numbered(h) && d in h.deliveries && d in u.deliveries
    requires u.deliveries == h.deliveries[d := u.deliveries[d]]
    requires u.deliveries[d].attemptCount == h.deliveries[d].attemptCount + 1
    requires u.attempts == h.attempts[(d, h.deliveries[d].attemptCount + 1) := attempt]
    ensures Numbered(u)
  {
  }

  /** Nothing but a row that is not PROCESSING makes a record of an existing delivery fail. */
  lemma RecordAccepted(m: int, h: Hub, p: Id, d: Id, retry: RetryPolicy, attempt: Attempt)
    requires HubOk(m, h)
    ensures RecordResult(h, p, d, retry, attempt).Ok? <==> OwnDelivery(h, p, d) && h.deliveries[d].status == Processing
  {
    hide RowsOk, LinksOk, AfterAttempt;
  }

  lemma RedeliverKeeps(m: int, h: Hub, p: Id, d: Id, at: Instant)
    requires m >= 1 && HubOk(m, h) && Redeliver(h, p, d, at).Ok?
    ensures var u := Redeliver(h, p, d, at).value; HubOk(m, u) && Evolves(h, u)
  {
    hide DeliveryOk, Numbered, LinksOk;
    RedeliveredOk(m, h.deliveries[d], at);
    RowUpdateKeeps(m, h, d, Redeliver(h, p, d, at).value.deliveries[d]);
  }

  lemma CancelKeeps(m: int, h: Hub, p: Id, d: Id)
    requires HubOk(m, h) && Cancel(h, p, d).Ok?
    ensures var u := Cancel(h, p, d).value; HubOk(m, u) && Evolves(h, u)
  {
    hide DeliveryOk, Numbered, LinksOk;
    if h.deliveries[d].status == Processing {
      CancelledOk(m, h.deliveries[d]);
      RowUpdateKeeps(m, h, d, CancelledDelivery(h.deliveries[d]));
    }
  }

  // ---------------------------------------------------------------- operations on many rows

  /** An operation that replaces rows but leaves the other tables and the counters alone. */
  lemma RowsUpdateKeeps(m: int, h: Hub, u: Hub)
    requires HubOk(m, h) && u.events == h.events && u.attempts == h.attempts && u.deliveries.Keys == h.deliveries.Keys
    requires u.subscriptions.Keys == h.subscriptions.Keys
    requires forall s :: s in h.subscriptions ==> SubscriptionStep(h.subscriptions[s], u.subscriptions[s])
    requires RowsOk(m, u)
    requires forall d :: d in h.deliveries ==>
               DeliveryStep(h.deliveries[d], u.deliveries[d]) && u.deliveries[d].attemptCount == h.deliveries[d].attemptCount
    requires forall d :: d in u.deliveries && Waiting(u.deliveries[d]) ==> ActiveSubscription(u, u.deliveries[d].subscriptionId)
    ensures HubOk(m, u) && Evolves(h, u)
  {
    hide RowsOk;
    forall e | e in u.deliveries ensures Linked(u, e) {
      assert Linked(h, e);
    }
  }

  lemma DisableKeeps(m: int, h: Hub, p: Id, s: Id, at: Instant)
    requires HubOk(m, h) && Disable(h, p, s, at).Ok?
    ensures var u := Disable(h, p, s, at).value; HubOk(m, u) && Evolves(h, u)
  {
    hide Numbered, LinksOk;
    var u := Disable(h, p, s, at).value;
    if u != h {
      NothingWaits(h, p, s, u);
      RowsUpdateKeeps(m, h, u);
    }
  }

  lemma NothingWaits(h: Hub, p: Id, s: Id, u: Hub)
    requires LinksOk(h) && s in h.subscriptions && h.subscriptions[s].projectId == p
    requires u.deliveries == CancelWaiting(h, p, s) && s in u.subscriptions
    requires u.subscriptions == h.subscriptions[s := u.subscriptions[s]]
    ensures forall d :: d in u.deliveries && Waiting(u.deliveries[d]) ==> ActiveSubscription(u, u.deliveries[d].subscriptionId)
  {
    hide Wants;
    forall d | d in u.deliveries && Waiting(u.deliveries[d])
      ensures ActiveSubscription(u, u.deliveries[d].subscriptionId)
    {
      assert Linked(h, d);
    }
  }

  lemma ClaimKeeps(m: int, h: Hub, now: Instant, limit: int, leaseSeconds: int)
    requires HubOk(m, h)
    ensures var u := Claim(h, now, limit, leaseSeconds); HubOk(m, u) && Evolves(h, u)
  {
    hide HubOk, Evolves, CancelAbandoned, Lease, Selected;
    var ready := CancelAbandoned(h, now);
    CancelAbandonedKeeps(m, h, now);
    SelectedAreClaimable(ready, now, limit);
    LeaseKeeps(m, ready, Selected(ready, now, limit), now, now + leaseSeconds * SECOND);
    EvolvesTrans(h, ready, Claim(h, now, limit, leaseSeconds));
  }

  lemma CancelAbandonedKeeps(m: int, h: Hub, now: Instant)
    requires HubOk(m, h)
    ensures HubOk(m, CancelAbandoned(h, now)) && Evolves(h, CancelAbandoned(h, now))
  {
    hide Numbered;
    RowsUpdateKeeps(m, h, CancelAbandoned(h, now));
  }

  lemma SelectedAreClaimable(h: Hub, now: Instant, limit: int)
    ensures forall d :: d in Selected(h, now, limit) ==> Claimable(h, d, now)
  {
    forall d | d in Selected(h, now, limit) ensures Claimable(h, d, now) {
      assert d in SortBy(ClaimableIds(h, now), DueTimes(h));
    }
  }

  lemma LeaseKeeps(m: int, h: Hub, ids: seq<Id>, now: Instant, until: Instant)
    requires HubOk(m, h) && forall d :: d in ids ==> Claimable(h, d, now)
    ensures HubOk(m, Lease(h, ids, until)) && Evolves(h, Lease(h, ids, until))
  {
    hide Numbered;
    RowsUpdateKeeps(m, h, Lease(h, ids, until));
  }

  // ---------------------------------------------------------------- fan-out

  predicate Addressed(subscriptions: map<Id, Subscription>, event: WebhookEvent, s: Id) {
    s in subscriptions && Wants(subscriptions[s], event.eventType)
  }

  /** Delivery d is the fan-out's delivery for subscription s. */
  predicate DeliveredBy(u: Hub, event: WebhookEvent, d: Id, s: Id) {
    d in u.deliveries && u.deliveries[d] == FirstDelivery(event, s)
  }

  /** What a fan-out over rows adds: one first delivery for each row that wants the event,
      under the id drawn for it, and nothing else. */
  ghost predicate FannedOut(h: Hub, event: WebhookEvent, rows: seq<Id>, uuids: nat -> Id, u: Hub) {
    && u.subscriptions == h.subscriptions && u.events == h.events && u.attempts == h.attempts
    && (forall d :: d in h.deliveries ==> d in u.deliveries && u.deliveries[d] == h.deliveries[d])
    && (forall i :: 0 <= i < |rows| && Addressed(h.subscriptions, event, rows[i]) ==>
          uuids(i) !in h.deliveries && DeliveredBy(u, event, uuids(i), rows[i]))
    && (forall d :: d in u.deliveries && d !in h.deliveries ==>
          exists i :: 0 <= i < |rows| && Addressed(h.subscriptions, event, rows[i]) && d == uuids(i) && DeliveredBy(u, event, d, rows[i]))
  }

  lemma {:induction false} FanOutAdds(h: Hub, event: WebhookEvent, rows: seq<Id>, uuids: nat -> Id)
    requires FanOut(h, event, rows, uuids).Some?
    ensures FannedOut(h, event, rows, uuids, FanOut(h, event, rows, uuids).value)
    decreases |rows|
  {
    hide Insertable, Wants;
    if rows != [] {
      var n := |rows| - 1;
      FanOutAdds(h, event, rows[..n], uuids);
      InsertableIsNew(FanOut(h, event, rows[..n], uuids).value, uuids(n), FirstDelivery(event, rows[n]));
      FannedOutOneMore(h, event, rows, uuids, FanOut(h, event, rows[..n], uuids).value,
                       FanOut(h, event, rows, uuids).value);
    }
  }

  lemma InsertableIsNew(h: Hub, d: Id, delivery: Delivery)
    ensures Insertable(h, d, delivery) ==> d !in h.deliveries
  {
  }

  lemma FannedOutOneMore(h: Hub, event: WebhookEvent, rows: seq<Id>, uuids: nat -> Id, u: Hub, v: Hub)
    requires rows != [] && FannedOut(h, event, rows[..|rows| - 1], uuids, u)
    requires var n := |rows| - 1;
             if Addressed(h.subscriptions, event, rows[n])
             then uuids(n) !in u.deliveries
                  && v == u.(deliveries := u.deliveries[uuids(n) := FirstDelivery(event, rows[n])])
             else v == u
    ensures FannedOut(h, event, rows, uuids, v)
  {
    hide Addressed;
    var n := |rows| - 1;
    forall d | d in v.deliveries && d !in h.deliveries
      ensures exists i :: 0 <= i < |rows| && Addressed(h.subscriptions, event, rows[i]) && d == uuids(i) && DeliveredBy(v, event, d, rows[i])
    {
      if d in u.deliveries {
        var i :| 0 <= i < n && Addressed(h.subscriptions, event, rows[..n][i]) && d == uuids(i) && DeliveredBy(u, event, d, rows[..n][i]);
        assert Addressed(h.subscriptions, event, rows[i]) && DeliveredBy(v, event, d, rows[i]);
      } else {
        assert Addressed(h.subscriptions, event, rows[n]) && DeliveredBy(v, event, d, rows[n]);
      }
    }
  }

  lemma PublishKeeps(m: int, h: Hub, event: WebhookEvent, uuids: nat -> Id)
    requires m >= 1 && HubOk(m, h) && Publish(h, event, uuids).Some?
    ensures HubOk(m, Publish(h, event, uuids).value) && Evolves(h, Publish(h, event, uuids).value)
  {
    hide FannedOut, FanOut, RowsOk, Numbered, LinksOk, ActiveRows;
    var start := h.(events := h.events[event.eventId := event]);
    var rows := ActiveRows(h, event.projectId);
    var u := Publish(h, event, uuids).value;
    FanOutAdds(start, event, rows, uuids);
    NewRowsOk(m, h, event, rows, uuids, u);
    ActiveRowsAre(h, event.projectId);
    NewLinksOk(h, event, rows, uuids, u);
    NewEvolves(h, event, rows, uuids, u);
  }

  lemma ActiveRowsAre(h: Hub, p: Id)
    ensures forall s :: s in ActiveRows(h, p) <==> ActiveSubscription(h, s) && h.subscriptions[s].projectId == p
    ensures forall i, j :: 0 <= i < j < |ActiveRows(h, p)| ==> ActiveRows(h, p)[i] != ActiveRows(h, p)[j]
  {
  }

  lemma NewRowsOk(m: int, h: Hub, event: WebhookEvent, rows: seq<Id>, uuids: nat -> Id, u: Hub)
    requires m >= 1 && RowsOk(m, h) && Numbered(h)
    requires FannedOut(h.(events := h.events[event.eventId := event]), event, rows, uuids, u)
    ensures RowsOk(m, u) && Numbered(u)
  {
    hide Addressed;
    forall d | d in u.deliveries ensures DeliveryOk(m, u.deliveries[d]) {
      if d !in h.deliveries {
        var i :| 0 <= i < |rows| && Addressed(h.subscriptions, event, rows[i]) && d == uuids(i) && DeliveredBy(u, event, d, rows[i]);
        FirstOk(m, event, rows[i]);
      }
    }
    forall d | d in u.deliveries && d !in h.deliveries ensures u.deliveries[d].attemptCount == 0 {
      var i :| 0 <= i < |rows| && Addressed(h.subscriptions, event, rows[i]) && d == uuids(i) && DeliveredBy(u, event, d, rows[i]);
    }
  }

  lemma NewLinksOk(h: Hub, event: WebhookEvent, rows: seq<Id>, uuids: nat -> Id, u: Hub)
    requires LinksOk(h) && event.eventId !in h.events
    requires FannedOut(h.(events := h.events[event.eventId := event]), event, rows, uuids, u)
    requires forall s :: s in rows ==> ActiveSubscription(h, s) && h.subscriptions[s].projectId == event.projectId
    requires forall i, j :: 0 <= i < j < |rows| ==> rows[i] != rows[j]
    ensures LinksOk(u)
  {
    hide Wants;
    forall d | d in u.deliveries
      ensures Linked(u, d) && (Waiting(u.deliveries[d]) ==> ActiveSubscription(u, u.deliveries[d].subscriptionId))
    {
      if d in h.deliveries {
        assert Linked(h, d);
      } else {
        var i :| 0 <= i < |rows| && Addressed(h.subscriptions, event, rows[i]) && d == uuids(i) && DeliveredBy(u, event, d, rows[i]);
        assert rows[i] in rows;
      }
    }
    NewTargets(h, event, rows, uuids, u);
  }

  lemma NewTargets(h: Hub, event: WebhookEvent, rows: seq<Id>, uuids: nat -> Id, u: Hub)
    requires LinksOk(h) && event.eventId !in h.events
    requires FannedOut(h.(events := h.events[event.eventId := event]), event, rows, uuids, u)
    requires forall i, j :: 0 <= i < j < |rows| ==> rows[i] != rows[j]
    ensures forall d, e | d in u.deliveries && e in u.deliveries && SameTarget(u.deliveries[d], u.deliveries[e]) :: d == e
  {
    hide Wants, Addressed;
    forall d | d in h.deliveries ensures u.deliveries[d].eventId != event.eventId {
      assert Linked(h, d);
    }
    forall d, e | d in u.deliveries && e in u.deliveries && SameTarget(u.deliveries[d], u.deliveries[e])
      ensures d == e
    {
      if d !in h.deliveries && e !in h.deliveries {
        var i :| 0 <= i < |rows| && Addressed(h.subscriptions, event, rows[i]) && d == uuids(i) && DeliveredBy(u, event, d, rows[i]);
        var j :| 0 <= j < |rows| && Addressed(h.subscriptions, event, rows[j]) && e == uuids(j) && DeliveredBy(u, event, e, rows[j]);
      }
    }
  }

  lemma NewEvolves(h: Hub, event: WebhookEvent, rows: seq<Id>, uuids: nat -> Id, u: Hub)
    requires event.eventId !in h.events && FannedOut(h.(events := h.events[event.eventId := event]), event, rows, uuids, u)
    ensures Evolves(h, u)
  {
    hide Wants, Addressed;
    forall d | d in u.deliveries && d !in h.deliveries ensures u.deliveries[d].eventId !in h.events {
      var i :| 0 <= i < |rows| && Addressed(h.subscriptions, event, rows[i]) && d == uuids(i) && DeliveredBy(u, event, d, rows[i]);
    }
  }

  /** The ids drawn for the rows that want the event are new and pairwise different. */
  ghost predicate FreshIds(h: Hub, event: WebhookEvent, rows: seq<Id>, uuids: nat -> Id) {
    && (forall i :: 0 <= i < |rows| && Addressed(h.subscriptions, event, rows[i]) ==> uuids(i) !in h.deliveries)
    && (forall i, j :: 0 <= i < j < |rows| && Addressed(h.subscriptions, event, rows[i]) && Addressed(h.subscriptions, event, rows[j]) ==>
          uuids(i) != uuids(j))
  }

  /** No key or trigger refuses a fan-out, unless the event or a drawn id already exists. */
  lemma PublishSucceedsIff(m: int, h: Hub, event: WebhookEvent, uuids: nat -> Id)
    requires HubOk(m, h)
    ensures Publish(h, event, uuids).Some? <==>
            event.eventId !in h.events && FreshIds(h, event, ActiveRows(h, event.projectId), uuids)
  {
    hide RowsOk, Numbered, FreshIds, FanOut, ActiveRows;
    if event.eventId !in h.events {
      var start := h.(events := h.events[event.eventId := event]);
      forall d | d in h.deliveries ensures h.deliveries[d].eventId != event.eventId {
        assert Linked(h, d);
      }
      ActiveRowsAre(h, event.projectId);
      FanOutSucceedsIff(start, event, ActiveRows(h, event.projectId), uuids);
      SameFresh(h, start, event, ActiveRows(h, event.projectId), uuids);
    }
  }

  lemma SameFresh(h: Hub, u: Hub, event: WebhookEvent, rows: seq<Id>, uuids: nat -> Id)
    requires u.subscriptions == h.subscriptions && u.deliveries == h.deliveries
    ensures FreshIds(h, event, rows, uuids) <==> FreshIds(u, event, rows, uuids)
  {
  }

  lemma {:induction false} FanOutSucceedsIff(h: Hub, event: WebhookEvent, rows: seq<Id>, uuids: nat -> Id)
    requires event.eventId in h.events && h.events[event.eventId] == event
    requires forall d :: d in h.deliveries ==> h.deliveries[d].eventId != event.eventId
    requires forall s :: s in rows ==> s in h.subscriptions && h.subscriptions[s].projectId == event.projectId
    requires forall i, j :: 0 <= i < j < |rows| ==> rows[i] != rows[j]
    ensures FanOut(h, event, rows, uuids).Some? <==> FreshIds(h, event, rows, uuids)
    decreases |rows|
  {
    hide Wants, FannedOut, Insertable;
    if rows != [] {
      var n := |rows| - 1;
      FanOutSucceedsIff(h, event, rows[..n], uuids);
      FreshOneMore(h, event, rows, uuids);
      if FanOut(h, event, rows[..n], uuids).Some? {
        FanOutAdds(h, event, rows[..n], uuids);
        NextInsertable(h, event, rows, uuids, FanOut(h, event, rows[..n], uuids).value);
      }
    }
  }

  lemma FreshOneMore(h: Hub, event: WebhookEvent, rows: seq<Id>, uuids: nat -> Id)
    requires rows != []
    ensures var n := |rows| - 1;
            FreshIds(h, event, rows, uuids) <==>
              && FreshIds(h, event, rows[..n], uuids)
              && (Addressed(h.subscriptions, event, rows[n]) ==> uuids(n) !in h.deliveries)
              && (Addressed(h.subscriptions, event, rows[n]) ==>
                    forall i :: 0 <= i < n && Addressed(h.subscriptions, event, rows[i]) ==> uuids(i) != uuids(n))
  {
    hide Addressed;
  }

  lemma NextInsertable(h: Hub, event: WebhookEvent, rows: seq<Id>, uuids: nat -> Id, u: Hub)
    requires rows != [] && FannedOut(h, event, rows[..|rows| - 1], uuids, u)
    requires event.eventId in h.events && h.events[event.eventId] == event
    requires forall d :: d in h.deliveries ==> h.deliveries[d].eventId != event.eventId
    requires forall s :: s in rows ==> s in h.subscriptions && h.subscriptions[s].projectId == event.projectId
    requires forall i, j :: 0 <= i < j < |rows| ==> rows[i] != rows[j]
    ensures var n := |rows| - 1;
            Insertable(u, uuids(n), FirstDelivery(event, rows[n])) <==>
              uuids(n) !in h.deliveries && forall i :: 0 <= i < n && Addressed(h.subscriptions, event, rows[i]) ==> uuids(i) != uuids(n)
  {
    hide Addressed;
    var n := |rows| - 1;
    assert rows[n] in rows;
    forall d | d in u.deliveries && d !in h.deliveries
      ensures exists i :: 0 <= i < n && Addressed(h.subscriptions, event, rows[i]) && d == uuids(i) && u.deliveries[d].subscriptionId == rows[i]
    {
      var i :| 0 <= i < n && Addressed(h.subscriptions, event, rows[..n][i]) && d == uuids(i) && DeliveredBy(u, event, d, rows[..n][i]);
      assert Addressed(h.subscriptions, event, rows[i]);
    }
    forall i | 0 <= i < n && Addressed(h.subscriptions, event, rows[i]) ensures uuids(i) in u.deliveries {
      assert DeliveredBy(u, event, uuids(i), rows[..n][i]);
    }
  }

  /** A published event has exactly one delivery for each subscription that is active in its
      project and asked for its type; it is due at once. */
  lemma OneDeliveryPerSubscriber(m: int, h: Hub, event: WebhookEvent, uuids: nat -> Id, s: Id)
    requires m >= 1 && HubOk(m, h) && Publish(h, event, uuids).Some?
    ensures var u := Publish(h, event, uuids).value;
            (ActiveSubscription(h, s) && h.subscriptions[s].projectId == event.projectId
             && Wants(h.subscriptions[s], event.eventType))
            <==> exists d :: DeliveredBy(u, event, d, s)
    ensures var u := Publish(h, event, uuids).value;
            forall d, e | d in u.deliveries && e in u.deliveries && SameTarget(u.deliveries[d], u.deliveries[e]) :: d == e
  {
    hide RowsOk, Numbered, FanOut, Wants, ActiveRows, FannedOut, LinksOk;
    var start := h.(events := h.events[event.eventId := event]);
    var rows := ActiveRows(h, event.projectId);
    FanOutAdds(start, event, rows, uuids);
    ActiveRowsAre(h, event.projectId);
    SubscribersServed(h, event, rows, uuids, Publish(h, event, uuids).value, s);
    PublishKeeps(m, h, event, uuids);
    TargetsUnique(Publish(h, event, uuids).value);
  }

  lemma TargetsUnique(h: Hub)
    requires LinksOk(h)
    ensures forall d, e | d in h.deliveries && e in h.deliveries && SameTarget(h.deliveries[d], h.deliveries[e]) :: d == e
  {
    hide Linked;
  }

  lemma SubscribersServed(h: Hub, event: WebhookEvent, rows: seq<Id>, uuids: nat -> Id, u: Hub, s: Id)
    requires LinksOk(h) && event.eventId !in h.events
    requires FannedOut(h.(events := h.events[event.eventId := event]), event, rows, uuids, u)
    requires s in rows ==> s in h.subscriptions
    ensures s in rows && Wants(h.subscriptions[s], event.eventType) <==> exists d :: DeliveredBy(u, event, d, s)
  {
    hide Wants;
    var subscriptions := h.subscriptions;
    if s in rows && Wants(subscriptions[s], event.eventType) {
      var i :| 0 <= i < |rows| && rows[i] == s;
      assert Addressed(subscriptions, event, rows[i]) && DeliveredBy(u, event, uuids(i), s);
    }
    forall d | d in h.deliveries ensures h.deliveries[d].eventId != event.eventId {
      assert Linked(h, d);
    }
    if d :| DeliveredBy(u, event, d, s) {
      var i :| 0 <= i < |rows| && Addressed(subscriptions, event, rows[i]) && d == uuids(i) && DeliveredBy(u, event, d, rows[i]);
      assert rows[i] == s;
    }
  }

  // ---------------------------------------------------------------- runs

  lemma SubscribeKeeps(m: int, h: Hub, s: Id, row: Subscription)
    requires HubOk(m, h) && Subscribe(h, s, row).Some?
    ensures HubOk(m, Subscribe(h, s, row).value) && Evolves(h, Subscribe(h, s, row).value)
  {
    hide Wants, RowsOk, Numbered;
    var u := Subscribe(h, s, row).value;
    forall d | d in u.deliveries ensures Linked(u, d) {
      assert Linked(h, d);
    }
    UntouchedRows(m, h, u);
  }

  lemma UntouchedRows(m: int, h: Hub, u: Hub)
    requires RowsOk(m, h) && Numbered(h) && u.deliveries == h.deliveries && u.attempts == h.attempts
    ensures RowsOk(m, u) && Numbered(u)
  {
  }

  lemma EvolvesRefl(h: Hub)
    ensures Evolves(h, h)
  {
  }

  lemma ApplyKeeps(retry: RetryPolicy, h: Hub, op: Op)
    requires retry.maxAttempts >= 1 && HubOk(retry.maxAttempts, h)
    ensures HubOk(retry.maxAttempts, Apply(retry, h, op)) && Evolves(h, Apply(retry, h, op))
  {
    hide HubOk, Evolves, Subscribe, Disable, Publish, Claim, Cancel, RecordResult, Redeliver;
    EvolvesRefl(h);
    var m := retry.maxAttempts;
    match op
    case SubscribeOp(s, row) => if Subscribe(h, s, row).Some? { SubscribeKeeps(m, h, s, row); }
    case DisableOp(p, s, at) => if Disable(h, p, s, at).Ok? { DisableKeeps(m, h, p, s, at); }
    case PublishOp(event, uuids) => if Publish(h, event, uuids).Some? { PublishKeeps(m, h, event, uuids); }
    case ClaimOp(now, limit, lease) => ClaimKeeps(m, h, now, limit, lease);
    case CancelOp(p, d) => if Cancel(h, p, d).Ok? { CancelKeeps(m, h, p, d); }
    case RecordOp(p, d, attempt) => if RecordResult(h, p, d, retry, attempt).Ok? { RecordKeeps(m, h, p, d, retry, attempt); }
    case RedeliverOp(p, d, at) => if Redeliver(h, p, d, at).Ok? { RedeliverKeeps(m, h, p, d, at); }
  }

  /** Every run keeps all invariants and never undoes identity, delivery or cancellation. */
  lemma {:induction false} RunKeeps(retry: RetryPolicy, h: Hub, ops: seq<Op>)
    requires retry.maxAttempts >= 1 && HubOk(retry.maxAttempts, h)
    ensures HubOk(retry.maxAttempts, Run(retry, h, ops)) && Evolves(h, Run(retry, h, ops))
    decreases |ops|
  {
    hide HubOk, Evolves, Apply;
    if ops == [] {
      EvolvesRefl(h);
    } else {
      var n := |ops| - 1;
      RunKeeps(retry, h, ops[..n]);
      ApplyKeeps(retry, Run(retry, h, ops[..n]), ops[n]);
      EvolvesTrans(h, Run(retry, h, ops[..n]), Run(retry, h, ops));
    }
  }

  lemma ReachableHubOk(retry: RetryPolicy, ops: seq<Op>)
    requires retry.maxAttempts >= 1
    ensures HubOk(retry.maxAttempts, Run(retry, EMPTY_HUB, ops))
  {
    hide Run;
    RunKeeps(retry, EMPTY_HUB, ops);
  }

  /** Between redeliveries, a delivery is attempted at most max_attempts - failure_count
      more times, whatever the workers do. */
  lemma RetryBudget(retry: RetryPolicy, h: Hub, ops: seq<Op>, d: Id)
    requires retry.maxAttempts >= 1 && HubOk(retry.maxAttempts, h) && d in h.deliveries
    ensures var u := Run(retry, h, ops);
            && d in u.deliveries
            && (u.deliveries[d].redeliveryCount == h.deliveries[d].redeliveryCount && h.deliveries[d].status != Delivered ==>
                  u.deliveries[d].attemptCount - h.deliveries[d].attemptCount
                  <= retry.maxAttempts - h.deliveries[d].failureCount)
  {
    hide Run, Numbered, LinksOk;
    RunKeeps(retry, h, ops);
  }

  /** A delivery once delivered or cancelled stays exactly as it is, an event never gets
      another delivery, and no attempt is ever rewritten. */
  lemma FinalStatesAbsorb(retry: RetryPolicy, h: Hub, ops: seq<Op>, d: Id)
    requires retry.maxAttempts >= 1 && HubOk(retry.maxAttempts, h)
    ensures var u := Run(retry, h, ops);
            && (d in h.deliveries && h.deliveries[d].status in {Delivered, Cancelled} ==>
                  d in u.deliveries && u.deliveries[d] == h.deliveries[d])
            && (d in u.deliveries && u.deliveries[d].eventId in h.events ==>
                  d in h.deliveries && SameTarget(u.deliveries[d], h.deliveries[d]))
            && (forall k :: k in h.attempts ==> k in u.attempts && u.attempts[k] == h.attempts[k])
  {
    hide Run, HubOk;
    RunKeeps(retry, h, ops);
  }

  // ---------------------------------------------------------------- selection

  /** A claim takes at most limit deliveries, each due or with its lease over and on an
      active subscription, and leaves behind none that comes before one it took. */
  lemma ClaimSelects(h: Hub, now: Instant, limit: int, d: Id)
    ensures limit >= 0 ==> |Selected(h, now, limit)| <= limit
    ensures d in Selected(h, now, limit) ==> Claimable(h, d, now)
    ensures Claimable(h, d, now) && d !in Selected(h, now, limit) ==>
              limit >= 0 && |Selected(h, now, limit)| == limit
              && forall e :: e in Selected(h, now, limit) ==> e in h.deliveries && Before(DueTimes(h), e, d)
  {
    var rows := SortBy(ClaimableIds(h, now), DueTimes(h));
    SelectedAreClaimable(h, now, limit);
    if Claimable(h, d, now) && d !in Selected(h, now, limit) {
      assert d in ClaimableIds(h, now);
      assert d in rows;
      var i :| 0 <= i < |rows| && rows[i] == d;
      assert i >= |Selected(h, now, limit)|;
      forall e | e in Selected(h, now, limit) ensures e in h.deliveries && Before(DueTimes(h), e, d) {
        var j :| 0 <= j < |Selected(h, now, limit)| && Selected(h, now, limit)[j] == e;
        assert rows[j] == e;
      }
    }
  }

  /** In reachable states a claimable delivery has a due time, so the order is that of
      next_attempt_at and an expired lease keeps its original place. */
  lemma DueTimeIsNextAttempt(m: int, h: Hub, d: Id, now: Instant)
    requires RowsOk(m, h) && Claimable(h, d, now)
    ensures h.deliveries[d].nextAttemptAt == Some(DueTimes(h)[d])
  {
    hide Conserved;
    assert DeliveryOk(m, h.deliveries[d]);
  }

  // ---------------------------------------------------------------- leases

  predicate Settles(op: Op, d: Id) {
    (op.CancelOp? || op.RecordOp? || op.RedeliverOp?) && op.delivery == d
  }

  /** d is leased until at least t, or cancelled for good. */
  predicate HeldUntil(h: Hub, d: Id, t: Instant) {
    && d in h.deliveries
    && (h.deliveries[d].status == Cancelled
        || (h.deliveries[d].status == Processing && h.deliveries[d].leaseExpiresAt.Some?
            && h.deliveries[d].leaseExpiresAt.value >= t))
  }

  /** No claim takes d before t. */
  predicate ClaimTakes(h: Hub, op: Op, d: Id) {
    op.ClaimOp? && d in ClaimedIds(h, op.now, op.limit)
  }

  lemma ClaimedIsLeased(h: Hub, now: Instant, limit: int, lease: int, d: Id)
    ensures d in ClaimedIds(h, now, limit) <==> d in Selected(CancelAbandoned(h, now), now, limit)
    ensures d in ClaimedIds(h, now, limit) ==>
              Claimable(CancelAbandoned(h, now), d, now) && HeldUntil(Claim(h, now, limit, lease), d, now + lease * SECOND)
  {
    SelectedAreClaimable(CancelAbandoned(h, now), now, limit);
  }

  lemma HoldIsKept(retry: RetryPolicy, h: Hub, op: Op, d: Id, t: Instant)
    requires HeldUntil(h, d, t) && !Settles(op, d) && (op.ClaimOp? ==> op.leaseSeconds >= 0)
    ensures ClaimTakes(h, op, d) ==> op.now >= t
    ensures HeldUntil(Apply(retry, h, op), d, t)
  {
    hide RecordResult, Redeliver, Cancel, Publish, Selected;
    match op
    case ClaimOp(now, limit, lease) =>
      ClaimedIsLeased(h, now, limit, lease, d);
    case PublishOp(event, uuids) =>
      PublishLeavesRows(h, event, uuids, d);
    case RecordOp(p, e, attempt) => RecordLeavesOthers(h, p, e, retry, attempt, d);
    case RedeliverOp(p, e, at) => RedeliverLeavesOthers(h, p, e, at, d);
    case CancelOp(p, e) => CancelLeavesOthers(h, p, e, d);
    case _ =>
  }

  lemma RecordLeavesOthers(h: Hub, p: Id, e: Id, retry: RetryPolicy, attempt: Attempt, d: Id)
    requires e != d && d in h.deliveries
    ensures var u := Settle(h, RecordResult(h, p, e, retry, attempt)); d in u.deliveries && u.deliveries[d] == h.deliveries[d]
  {
  }

  lemma RedeliverLeavesOthers(h: Hub, p: Id, e: Id, at: Instant, d: Id)
    requires e != d && d in h.deliveries
    ensures var u := Settle(h, Redeliver(h, p, e, at)); d in u.deliveries && u.deliveries[d] == h.deliveries[d]
  {
  }

  lemma CancelLeavesOthers(h: Hub, p: Id, e: Id, d: Id)
    requires e != d && d in h.deliveries
    ensures var u := Settle(h, Cancel(h, p, e)); d in u.deliveries && u.deliveries[d] == h.deliveries[d]
  {
  }

  lemma PublishLeavesRows(h: Hub, event: WebhookEvent, uuids: nat -> Id, d: Id)
    requires d in h.deliveries
    ensures Publish(h, event, uuids).Some? ==>
              var u := Publish(h, event, uuids).value; d in u.deliveries && u.deliveries[d] == h.deliveries[d]
  {
    hide FanOut, ActiveRows;
    if Publish(h, event, uuids).Some? {
      FanOutAdds(h.(events := h.events[event.eventId := event]), event, ActiveRows(h, event.projectId), uuids);
    }
  }

  /** Two claims of one delivery, with no result, cancellation or redelivery of it in
      between, are at least the first lease apart. */
  lemma LeasesDoNotOverlap(retry: RetryPolicy, h: Hub, first: Op, between: seq<Op>, second: Op, d: Id)
    requires ClaimTakes(h, first, d) && first.leaseSeconds >= 0
    requires forall i :: 0 <= i < |between| ==>
               !Settles(between[i], d) && (between[i].ClaimOp? ==> between[i].leaseSeconds >= 0)
    requires second.ClaimOp? && ClaimTakes(Run(retry, Apply(retry, h, first), between), second, d)
    ensures second.now >= first.now + first.leaseSeconds * SECOND
  {
    hide Run, Claim, ClaimedIds;
    ClaimedIsLeased(h, first.now, first.limit, first.leaseSeconds, d);
    var t := first.now + first.leaseSeconds * SECOND;
    HoldLasts(retry, Apply(retry, h, first), between, d, t);
    SecondClaim(retry, Run(retry, Apply(retry, h, first), between), second, d, t);
  }

  lemma SecondClaim(retry: RetryPolicy, h: Hub, op: Op, d: Id, t: Instant)
    requires op.ClaimOp? && HeldUntil(h, d, t) && ClaimTakes(h, op, d)
    ensures op.now >= t
  {
    HoldIsKept(retry, h, op.(leaseSeconds := 0), d, t);
  }

  lemma {:induction false} HoldLasts(retry: RetryPolicy, h: Hub, ops: seq<Op>, d: Id, t: Instant)
    requires HeldUntil(h, d, t)
    requires forall i :: 0 <= i < |ops| ==> !Settles(ops[i], d) && (ops[i].ClaimOp? ==> ops[i].leaseSeconds >= 0)
    ensures HeldUntil(Run(retry, h, ops), d, t)
    decreases |ops|
  {
    hide HeldUntil, Apply;
    if ops != [] {
      HoldLasts(retry, h, ops[..|ops| - 1], d, t);
      HoldIsKept(retry, Run(retry, h, ops[..|ops| - 1]), ops[|ops| - 1], d, t);
    }
  }

  // ---------------------------------------------------------------- retry delays

  /** The delay after each further failure never shrinks, at most doubles, and never exceeds
      its cap. */
  lemma {:induction false} RetryDelays(retry: RetryPolicy, failures: nat)
    requires failures >= 1 && retry.baseSeconds >= 0 && retry.maxSeconds >= 0
    ensures 0 <= RetrySeconds(retry, failures) <= RetrySeconds(retry, failures + 1) <= retry.maxSeconds
    ensures RetrySeconds(retry, failures + 1) <= 2 * RetrySeconds(retry, failures)
    ensures RetrySeconds(retry, failures) == retry.maxSeconds
            || RetrySeconds(retry, failures) == retry.baseSeconds * PowerOfTwo(failures - 1)
  {
    var power := PowerOfTwo(failures - 1);
    PowerPositive(failures - 1);
    assert PowerOfTwo(failures) == 2 * power;
    assert retry.baseSeconds * (2 * power) == 2 * (retry.baseSeconds * power);
    assert retry.baseSeconds * power >= 0;
  }

  lemma PowerPositive(n: nat)
    ensures PowerOfTwo(n) >= 1
  {
  }
}
