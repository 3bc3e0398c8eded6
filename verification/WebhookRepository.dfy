/** app/storage/webhooks.py and dispatch_pending_webhooks of app/services/webhooks.py: the
    tables changed in place, each method proved to be one transition of Webhooks.dfy, or one of
    WebhookRaces.dfy where it reads before its transaction begins, and the worker loop proved to
    be a run of them. */
module WebhookRepository {
  import opened Ordering
  import opened Integrity
  import opened Webhooks
  import opened WebhookInvariants
  import Races = WebhookRaces

  datatype Summary = Summary(claimed: nat, delivered: nat, retryScheduled: nat, deadLettered: nat, cancelled: nat)

  /** What the transport does: a status code, or None for a WebhookTransportError. */
  type Response = Option<int>

  function OutcomeOf(response: Response): DeliveryOutcome {
    if response.None? then NetworkError
    else if 200 <= response.value < 300 then Success else HttpError
  }

  /** The endpoint answered, and with a success code. */
  predicate Accepted(response: Response) {
    response.Some? && 200 <= response.value <= 299
  }

  class WebhookRepository {
    var subscriptions: map<Id, Subscription>
    var events: map<Id, WebhookEvent>
    var deliveries: map<Id, Delivery>
    var attempts: map<(Id, int), Attempt>

    constructor ()
      ensures View() == EMPTY_HUB
    {
      subscriptions, events, deliveries, attempts := map[], map[], map[], map[];
    }

    function View(): Hub
      reads this
    {
      Hub(subscriptions, events, deliveries, attempts)
    }

    method Rollback(h: Hub)
      modifies this
      ensures View() == h
    {
      subscriptions, events, deliveries, attempts := h.subscriptions, h.events, h.deliveries, h.attempts;
    }

    method InsertSubscription(s: Id, row: Subscription) returns (ok: bool)
      modifies this`subscriptions
      ensures ok == Subscribe(old(View()), s, row).Some?
      ensures View() == if ok then Subscribe(old(View()), s, row).value else old(View())
    {
      ok := s !in subscriptions && row.disabledAt.None?;
      if ok {
        subscriptions := subscriptions[s := row];
      }
    }

    /** The subscription first, then the deliveries that still wait for it. */
    method DisableSubscription(p: Id, s: Id, at: Instant) returns (r: Result<Subscription, WebhookError>)
      modifies this`subscriptions, this`deliveries
      ensures match Disable(old(View()), p, s, at)
              case Ok(u) => View() == u && DisabledSubscription(u, s) && r == Ok(u.subscriptions[s])
              case Err(e) => View() == old(View()) && r == Err(e)
    {
      if s !in subscriptions || subscriptions[s].projectId != p {
        return Err(SubscriptionNotFound);
      }
      if subscriptions[s].disabledAt.Some? {
        return Ok(subscriptions[s]);
      }
      subscriptions := subscriptions[s := subscriptions[s].(disabledAt := Some(at))];
      deliveries := CancelWaiting(View(), p, s);
      r := Ok(subscriptions[s]);
    }

    method InsertDelivery(d: Id, delivery: Delivery) returns (ok: bool)
      modifies this`deliveries
      ensures ok == Insertable(old(View()), d, delivery)
      ensures deliveries == if ok then old(deliveries)[d := delivery] else old(deliveries)
    {
      ok := Insertable(View(), d, delivery);
      if ok {
        deliveries := deliveries[d := delivery];
      }
    }

    /** The event, then one delivery for each active subscription that selects its type. */
    method InsertEventWithDeliveries(event: WebhookEvent, uuids: nat -> Id) returns (ok: bool)
      modifies this
      ensures ok == Publish(old(View()), event, uuids).Some?
      ensures View() == if ok then Publish(old(View()), event, uuids).value else old(View())
    {
      hide ActiveRows, Insertable, Wants;
      var start := View();
      if event.eventId in events {
        return false;
      }
      events := events[event.eventId := event];
      ghost var extended := View();
      var rows := ActiveRows(start, event.projectId);
      ActiveRowsAre(start, event.projectId);
      assert rows[..0] == [];
      for i := 0 to |rows|
        invariant View() == extended.(deliveries := deliveries)
        invariant FanOut(extended, event, rows[..i], uuids) == Some(View())
      {
        assert rows[..i + 1][..i] == rows[..i];
        assert rows[i] in rows;
        if !Wants(subscriptions[rows[i]], event.eventType) {
          continue;
        }
        var inserted := InsertDelivery(uuids(i), FirstDelivery(event, rows[i]));
        if !inserted {
          NoFanOutAfter(extended, event, rows, i, uuids);
          Rollback(start);
          return false;
        }
      }
      assert rows[..|rows|] == rows;
      return true;
    }

    /** One transaction: cancel the abandoned, select the due, lease them. */
    method ClaimDueDeliveries(now: Instant, limit: int, leaseSeconds: int) returns (claimed: seq<Id>)
      modifies this`deliveries
      ensures View() == Claim(old(View()), now, limit, leaseSeconds)
      ensures claimed == ClaimedIds(old(View()), now, limit)
    {
      hide ClaimableIds;
      deliveries := CancelAbandoned(View(), now).deliveries;
      var ids := Selected(View(), now, limit);
      var chosen := set d | d in deliveries && d in ids;
      var births := BirthTimes(View());
      if ids == [] {
        assert Lease(View(), ids, now + leaseSeconds * SECOND).deliveries == deliveries;
        assert chosen == {};
        return [];
      }
      claimed := SortBy(chosen, births);
      deliveries := Lease(View(), ids, now + leaseSeconds * SECOND).deliveries;
    }

    method CancelProcessingDelivery(p: Id, d: Id) returns (r: Result<Delivery, WebhookError>)
      modifies this`deliveries
      ensures match Cancel(old(View()), p, d)
              case Ok(u) => View() == u && OwnDelivery(u, p, d) && r == Ok(u.deliveries[d])
              case Err(e) => View() == old(View()) && r == Err(e)
    {
      if OwnDelivery(View(), p, d) && deliveries[d].status == Processing {
        deliveries := deliveries[d := CancelledDelivery(deliveries[d])];
      }
      r := if OwnDelivery(View(), p, d) then Ok(deliveries[d]) else Err(DeliveryNotFound);
    }

    /** The attempt row first, then the delivery's new status and counters; others commit
        between the read and the first write. */
    method RecordDeliveryResult(p: Id, d: Id, retry: RetryPolicy, attempt: Attempt, others: seq<Op>)
      returns (r: Result<Delivery, WebhookError>)
      modifies this
      ensures var u := Races.Later(retry, old(View()), others);
              match Races.RecordSplit(old(View()), u, p, d, retry, attempt)
              case Ok(v) => View() == v && d in v.deliveries && r == Ok(v.deliveries[d])
              case Err(e) => View() == (if e == IntegrityError then u else old(View())) && r == Err(e)
    {
      hide Run;
      if !OwnDelivery(View(), p, d) {
        return Err(DeliveryNotFound);
      }
      var current := deliveries[d];
      if current.status != Processing {
        return Err(DeliveryState(current.status));
      }
      Races.RunKeepsRows(retry, View(), others);
      Elsewhere(retry, others);
      var attemptNumber := current.attemptCount + 1;
      if (d, attemptNumber) in attempts {
        return Err(IntegrityError);
      }
      attempts := attempts[(d, attemptNumber) := attempt];
      var status, failureCount, nextAttemptAt, deliveredAt := Delivered, 0, None, Some(attempt.completedAt);
      if attempt.outcome != Success {
        failureCount, deliveredAt := current.failureCount + 1, None;
        if !OwnActive(View(), p, current.subscriptionId) {
          status := Cancelled;
        } else if failureCount >= retry.maxAttempts {
          status := DeadLetter;
        } else {
          var retrySeconds := RetrySeconds(retry, failureCount);
          status, nextAttemptAt := RetryScheduled, Some(attempt.completedAt + retrySeconds * SECOND);
        }
      }
      if deliveries[d].status == Processing {
        deliveries := deliveries[d := deliveries[d].(status := status, attemptCount := attemptNumber,
                        failureCount := failureCount, nextAttemptAt := nextAttemptAt, leaseExpiresAt := None,
                        deliveredAt := deliveredAt)];
      }
      r := Ok(deliveries[d]);
    }

    /** Others commit before the subscription is looked up, and again before the write. */
    method RequestRedelivery(p: Id, d: Id, at: Instant, retry: RetryPolicy, before: seq<Op>, after: seq<Op>)
      returns (r: Result<Delivery, WebhookError>)
      modifies this
      ensures var g := Races.Later(retry, old(View()), before);
              var u := Races.Later(retry, g, after);
              match Races.RedeliverSplit(old(View()), g, u, p, d, at)
              case Ok(v) => View() == v && d in v.deliveries && r == Ok(v.deliveries[d])
              case Err(e) =>
                r == Err(e)
                && View() == if e == SubscriptionNotFound || e == SubscriptionDisabled then g else old(View())
    {
      hide Run;
      if !OwnDelivery(View(), p, d) {
        return Err(DeliveryNotFound);
      }
      var current := deliveries[d];
      if current.status != DeadLetter {
        return Err(NotRedeliverable(current.status));
      }
      Races.RunKeepsRows(retry, View(), before);
      Elsewhere(retry, before);
      var s := current.subscriptionId;
      if s !in subscriptions || subscriptions[s].projectId != p {
        return Err(SubscriptionNotFound);
      }
      if subscriptions[s].disabledAt.Some? {
        return Err(SubscriptionDisabled);
      }
      Races.RunKeepsRows(retry, View(), after);
      Elsewhere(retry, after);
      if deliveries[d].status == DeadLetter {
        deliveries := deliveries[d := deliveries[d].(status := Pending, failureCount := 0,
                        redeliveryCount := deliveries[d].redeliveryCount + 1, nextAttemptAt := Some(at),
                        leaseExpiresAt := None, deliveredAt := None)];
      }
      r := Ok(deliveries[d]);
    }

    /** What other workers and operators commit in the meantime. */
    method Elsewhere(retry: RetryPolicy, ops: seq<Op>)
      modifies this
      ensures View() == Run(retry, old(View()), ops)
    {
      Rollback(Run(retry, View(), ops));
    }

    /** One claimed delivery: cancelled if its subscription is no longer active, else sent
        and recorded. The operations of others commit before the lookup and during the send. */
    method DispatchOne(d: Id, row: Delivery, now: Instant, retry: RetryPolicy, response: Response,
                       before: seq<Op>, during: seq<Op>)
      returns (r: Result<DeliveryStatus, WebhookError>, ghost trace: seq<Op>)
      modifies this
      ensures View() == Run(retry, old(View()), trace)
      ensures r.Ok? ==> r.value in {Delivered, RetryScheduled, DeadLetter, Cancelled}
      ensures r == Ok(Delivered) ==> Accepted(response)
      ensures before == [] && during == [] && Dispatchable(retry.maxAttempts, old(View()), d, row) ==>
                var u := RecordResult(old(View()), row.projectId, d, retry, Attempt(now, now, OutcomeOf(response)));
                && u.Ok? && View() == u.value && d in u.value.deliveries && r == Ok(u.value.deliveries[d].status)
                && (r.value == Delivered <==> Accepted(response))
    {
      hide HubOk, RecordResult, Cancel, Apply;
      ghost var start := View();
      RunAppend(retry, start, [], before);
      Elsewhere(retry, before);
      trace := before;
      if row.eventId !in events || events[row.eventId].projectId != row.projectId
         || row.subscriptionId !in subscriptions || subscriptions[row.subscriptionId].projectId != row.projectId {
        DispatchableLinks(retry.maxAttempts, start, d, row);
        return Err(MissingData), trace;
      }
      if subscriptions[row.subscriptionId].disabledAt.Some? {
        RunAppend(retry, start, trace, [CancelOp(row.projectId, d)]);
        CancelIsOp(retry, View(), row.projectId, d);
        var cancelled := CancelProcessingDelivery(row.projectId, d);
        if cancelled.Err? {
          return Err(cancelled.error), trace;
        }
        return Ok(Cancelled), trace + [CancelOp(row.projectId, d)];
      }
      RunAppend(retry, start, trace, during);
      Elsewhere(retry, during);
      trace := trace + during;
      var attempt := Attempt(now, now, OutcomeOf(response));
      RunAppend(retry, start, trace, [RecordOp(row.projectId, d, attempt)]);
      RecordIsOp(retry, View(), row.projectId, d, attempt);
      DispatchableRecord(retry, start, d, row, attempt);
      RecordedStatus(View(), row.projectId, d, retry, attempt);
      UndisturbedRecord(retry, View(), row.projectId, d, attempt);
      var completed := RecordDeliveryResult(row.projectId, d, retry, attempt, []);
      if completed.Err? {
        return Err(completed.error), trace;
      }
      return Ok(completed.value.status), trace + [RecordOp(row.projectId, d, attempt)];
    }

    /** The loop over the claimed rows, with its counters. */
    method DispatchClaimed(claimed: seq<Id>, rows: seq<Delivery>, now: Instant, retry: RetryPolicy,
                           responses: nat -> Response, before: nat -> seq<Op>, during: nat -> seq<Op>)
      returns (r: Result<Summary, WebhookError>, ghost trace: seq<Op>, ghost statuses: seq<DeliveryStatus>)
      requires |rows| == |claimed| && Distinct(claimed)
      modifies this
      ensures View() == Run(retry, old(View()), trace)
      ensures r.Ok? ==> && r.value == Tally(|claimed|, statuses) && r.value.claimed == |claimed|
                        && |claimed| == r.value.delivered + r.value.retryScheduled + r.value.deadLettered + r.value.cancelled
      ensures r.Ok? ==> |statuses| == |claimed| && OnlyAccepted(statuses, responses)
      ensures Calm(retry, old(View()), claimed, rows, before, during) ==>
                r.Ok? && Recorded(View(), claimed, statuses) && AllAccepted(statuses, responses)
    {
      hide Run, RecordResult, Tally, Dispatchable, Distinct;
      ghost var start := View();
      ghost var calm := Calm(retry, start, claimed, rows, before, during);
      trace, statuses := [], [];
      RunAppend(retry, start, [], []);
      RunNone(retry, start);
      var summary := Summary(|claimed|, 0, 0, 0, 0);
      TallyNone(|claimed|);
      for i := 0 to |claimed|
        invariant View() == Run(retry, start, trace)
        invariant |statuses| == i && summary == Tally(|claimed|, statuses) && summary.claimed == |claimed|
        invariant summary.delivered + summary.retryScheduled + summary.deadLettered + summary.cancelled == i
        invariant OnlyAccepted(statuses, responses) && (calm ==> AllAccepted(statuses, responses))
        invariant calm ==> Recorded(View(), claimed[..i], statuses) && Remaining(retry.maxAttempts, View(), claimed, rows, i)
      {
        ghost var h := View();
        var status, ops := DispatchOne(claimed[i], rows[i], now, retry, responses(i), before(i), during(i));
        RunAppend(retry, start, trace, ops);
        trace := trace + ops;
        if status.Err? {
          return Err(status.error), trace, statuses;
        }
        TallyOneMore(|claimed|, statuses, status.value);
        assert (statuses + [status.value])[..i] == statuses;
        statuses := statuses + [status.value];
        match status.value {
          case Delivered => summary := summary.(delivered := summary.delivered + 1);
          case RetryScheduled => summary := summary.(retryScheduled := summary.retryScheduled + 1);
          case DeadLetter => summary := summary.(deadLettered := summary.deadLettered + 1);
          case Cancelled => summary := summary.(cancelled := summary.cancelled + 1);
        }
        if calm {
          DispatchKeeps(retry, h, claimed, rows, i, Attempt(now, now, OutcomeOf(responses(i))), statuses);
        }
      }
      assert claimed[..|claimed|] == claimed;
      return Ok(summary), trace, statuses;
    }

    /** The worker. Whatever others do meanwhile, it is a run of the delivery machine, and
        if it returns normally every claimed delivery is in exactly one counter, and in that of
        the delivered only if its endpoint accepted it. If nobody interferes it does return
        normally, and the counters count the new statuses, DELIVERED exactly where the
        endpoint answered with a success code. */
    method DispatchPendingWebhooks(now: Instant, limit: int, leaseSeconds: int, retry: RetryPolicy,
                                   responses: nat -> Response, before: nat -> seq<Op>, during: nat -> seq<Op>)
      returns (r: Result<Summary, WebhookError>, ghost trace: seq<Op>, ghost statuses: seq<DeliveryStatus>)
      modifies this
      ensures View() == Run(retry, old(View()), trace)
      ensures r.Ok? ==>
                && r.value.claimed == |ClaimedIds(old(View()), now, limit)| == |statuses|
                && r.value == Tally(|statuses|, statuses) && OnlyAccepted(statuses, responses)
                && r.value.claimed
                   == r.value.delivered + r.value.retryScheduled + r.value.deadLettered + r.value.cancelled
      ensures retry.maxAttempts >= 1 && HubOk(retry.maxAttempts, old(View())) && Undisturbed(before, during) ==>
                && r.Ok? && Recorded(View(), ClaimedIds(old(View()), now, limit), statuses) && AllAccepted(statuses, responses)
    {
      hide HubOk, Run, Claim, ClaimedIds, RecordResult, Tally, Remaining, Recorded, Undisturbed;
      ghost var start := View();
      ClaimIsOp(retry, start, now, limit, leaseSeconds);
      var claimed := ClaimDueDeliveries(now, limit, leaseSeconds);
      ClaimedExist(start, now, limit, leaseSeconds);
      var stored := deliveries;
      var rows := seq(|claimed|, i requires 0 <= i < |claimed| && claimed[i] in stored => stored[claimed[i]]);
      if HubOk(retry.maxAttempts, start) {
        ClaimedDispatchable(retry.maxAttempts, start, now, limit, leaseSeconds, rows);
      }
      r, trace, statuses := DispatchClaimed(claimed, rows, now, retry, responses, before, during);
      RunAppend(retry, start, [ClaimOp(now, limit, leaseSeconds)], trace);
      trace := [ClaimOp(now, limit, leaseSeconds)] + trace;
    }
  }

  // ---------------------------------------------------------------- runs of the worker

  lemma {:induction false} RunAppend(retry: RetryPolicy, h: Hub, a: seq<Op>, b: seq<Op>)
    ensures Run(retry, h, a + b) == Run(retry, Run(retry, h, a), b)
    decreases |b|
  {
    hide Apply;
    if b == [] {
      assert a + b == a;
    } else {
      assert (a + b)[..|a + b| - 1] == a + b[..|b| - 1];
      RunAppend(retry, h, a, b[..|b| - 1]);
    }
  }

  lemma RunNone(retry: RetryPolicy, h: Hub)
    ensures Run(retry, h, []) == h
  {
  }

  lemma OneOp(retry: RetryPolicy, h: Hub, op: Op)
    ensures Run(retry, h, [op]) == Apply(retry, h, op)
  {
    assert Run(retry, h, [op][..0]) == h;
  }

  lemma ClaimIsOp(retry: RetryPolicy, h: Hub, now: Instant, limit: int, lease: int)
    ensures Run(retry, h, [ClaimOp(now, limit, lease)]) == Claim(h, now, limit, lease)
    ensures Run(retry, h, []) == h
  {
    OneOp(retry, h, ClaimOp(now, limit, lease));
  }

  lemma CancelIsOp(retry: RetryPolicy, h: Hub, p: Id, d: Id)
    ensures Run(retry, h, [CancelOp(p, d)]) == Settle(h, Cancel(h, p, d))
  {
    OneOp(retry, h, CancelOp(p, d));
  }

  lemma RecordIsOp(retry: RetryPolicy, h: Hub, p: Id, d: Id, attempt: Attempt)
    ensures Run(retry, h, [RecordOp(p, d, attempt)]) == Settle(h, RecordResult(h, p, d, retry, attempt))
  {
    OneOp(retry, h, RecordOp(p, d, attempt));
  }

  lemma UndisturbedRecord(retry: RetryPolicy, h: Hub, p: Id, d: Id, attempt: Attempt)
    ensures Races.Later(retry, h, []) == h
    ensures Races.RecordSplit(h, h, p, d, retry, attempt) == RecordResult(h, p, d, retry, attempt)
  {
  }

  // ---------------------------------------------------------------- an undisturbed worker

  ghost predicate Undisturbed(before: nat -> seq<Op>, during: nat -> seq<Op>) {
    forall i: nat :: before(i) == [] && during(i) == []
  }

  ghost predicate Dispatchable(m: int, h: Hub, d: Id, row: Delivery) {
    && HubOk(m, h) && OwnDelivery(h, row.projectId, d) && h.deliveries[d].status == Processing
    && SameTarget(h.deliveries[d], row) && ActiveSubscription(h, row.subscriptionId)
  }

  ghost predicate Remaining(m: int, h: Hub, claimed: seq<Id>, rows: seq<Delivery>, i: nat) {
    |rows| == |claimed| && forall j :: i <= j < |claimed| ==> Dispatchable(m, h, claimed[j], rows[j])
  }

  ghost predicate Distinct(ids: seq<Id>) {
    forall j, k :: 0 <= j < k < |ids| ==> ids[j] != ids[k]
  }

  ghost predicate Calm(retry: RetryPolicy, h: Hub, claimed: seq<Id>, rows: seq<Delivery>,
                       before: nat -> seq<Op>, during: nat -> seq<Op>) {
    retry.maxAttempts >= 1 && Remaining(retry.maxAttempts, h, claimed, rows, 0) && Undisturbed(before, during)
  }

  ghost predicate Recorded(h: Hub, ids: seq<Id>, statuses: seq<DeliveryStatus>) {
    |ids| == |statuses| && forall j :: 0 <= j < |ids| ==> ids[j] in h.deliveries && h.deliveries[ids[j]].status == statuses[j]
  }

  /** Nothing is reported as delivered that its endpoint did not accept. */
  ghost predicate OnlyAccepted(statuses: seq<DeliveryStatus>, responses: nat -> Response) {
    forall i :: 0 <= i < |statuses| && statuses[i] == Delivered ==> Accepted(responses(i))
  }

  ghost predicate AllAccepted(statuses: seq<DeliveryStatus>, responses: nat -> Response) {
    forall i :: 0 <= i < |statuses| ==> (statuses[i] == Delivered <==> Accepted(responses(i)))
  }

  function CountOf(statuses: seq<DeliveryStatus>, status: DeliveryStatus): nat {
    multiset(statuses)[status]
  }

  function Tally(claimed: nat, statuses: seq<DeliveryStatus>): Summary {
    Summary(claimed, CountOf(statuses, Delivered), CountOf(statuses, RetryScheduled), CountOf(statuses, DeadLetter),
            CountOf(statuses, Cancelled))
  }

  lemma TallyNone(claimed: nat)
    ensures Tally(claimed, []) == Summary(claimed, 0, 0, 0, 0)
  {
  }

  lemma TallyOneMore(claimed: nat, statuses: seq<DeliveryStatus>, status: DeliveryStatus)
    ensures var t := Tally(claimed, statuses);
            Tally(claimed, statuses + [status])
            == match status
               case Delivered => t.(delivered := t.delivered + 1)
               case RetryScheduled => t.(retryScheduled := t.retryScheduled + 1)
               case DeadLetter => t.(deadLettered := t.deadLettered + 1)
               case Cancelled => t.(cancelled := t.cancelled + 1)
               case _ => t
  {
  }

  lemma DispatchableLinks(m: int, h: Hub, d: Id, row: Delivery)
    ensures Dispatchable(m, h, d, row) ==>
              && row.eventId in h.events && h.events[row.eventId].projectId == row.projectId
              && row.subscriptionId in h.subscriptions && h.subscriptions[row.subscriptionId].projectId == row.projectId
  {
    hide RowsOk, Numbered, Wants;
    if Dispatchable(m, h, d, row) {
      assert Linked(h, d);
    }
  }

  lemma DispatchableRecord(retry: RetryPolicy, h: Hub, d: Id, row: Delivery, attempt: Attempt)
    ensures Dispatchable(retry.maxAttempts, h, d, row) ==> RecordResult(h, row.projectId, d, retry, attempt).Ok?
  {
    hide HubOk, RecordResult;
    if Dispatchable(retry.maxAttempts, h, d, row) {
      RecordAccepted(retry.maxAttempts, h, row.projectId, d, retry, attempt);
    }
  }

  lemma RecordedStatus(h: Hub, p: Id, d: Id, retry: RetryPolicy, attempt: Attempt)
    ensures RecordResult(h, p, d, retry, attempt).Ok? ==>
              var u := RecordResult(h, p, d, retry, attempt).value;
              && d in u.deliveries && u.deliveries[d].status in {Delivered, RetryScheduled, DeadLetter, Cancelled}
              && (u.deliveries[d].status == Delivered <==> attempt.outcome == Success)
  {
  }

  lemma ClaimedExist(h: Hub, now: Instant, limit: int, lease: int)
    ensures forall i :: 0 <= i < |ClaimedIds(h, now, limit)| ==>
              ClaimedIds(h, now, limit)[i] in Claim(h, now, limit, lease).deliveries
    ensures Distinct(ClaimedIds(h, now, limit))
  {
    hide Selected;
    var ids := ClaimedIds(h, now, limit);
    forall i | 0 <= i < |ids| ensures ids[i] in Claim(h, now, limit, lease).deliveries {
      assert ids[i] in ids;
    }
  }

  lemma ClaimedDispatchable(m: int, h: Hub, now: Instant, limit: int, lease: int, rows: seq<Delivery>)
    requires HubOk(m, h) && |rows| == |ClaimedIds(h, now, limit)|
    requires var u := Claim(h, now, limit, lease);
             var ids := ClaimedIds(h, now, limit);
             forall i :: 0 <= i < |ids| ==> ids[i] in u.deliveries && rows[i] == u.deliveries[ids[i]]
    ensures Remaining(m, Claim(h, now, limit, lease), ClaimedIds(h, now, limit), rows, 0)
  {
    hide HubOk, Selected, SortBy;
    var u := Claim(h, now, limit, lease);
    var ids := ClaimedIds(h, now, limit);
    ClaimKeeps(m, h, now, limit, lease);
    forall i | 0 <= i < |ids| ensures Dispatchable(m, u, ids[i], rows[i]) {
      assert ids[i] in ids;
      ClaimedIsLeased(h, now, limit, lease, ids[i]);
    }
  }

  lemma DispatchKeeps(retry: RetryPolicy, h: Hub, claimed: seq<Id>, rows: seq<Delivery>, i: nat, attempt: Attempt,
                      statuses: seq<DeliveryStatus>)
    requires i < |claimed| && retry.maxAttempts >= 1 && Remaining(retry.maxAttempts, h, claimed, rows, i)
    requires RecordResult(h, rows[i].projectId, claimed[i], retry, attempt).Ok?
    requires |statuses| == i + 1 && Recorded(h, claimed[..i], statuses[..i])
    requires var u := RecordResult(h, rows[i].projectId, claimed[i], retry, attempt).value;
             claimed[i] in u.deliveries && u.deliveries[claimed[i]].status == statuses[i]
    requires Distinct(claimed)
    ensures var u := RecordResult(h, rows[i].projectId, claimed[i], retry, attempt).value;
            Recorded(u, claimed[..i + 1], statuses) && Remaining(retry.maxAttempts, u, claimed, rows, i + 1)
  {
    hide HubOk, AfterAttempt;
    var u := RecordResult(h, rows[i].projectId, claimed[i], retry, attempt).value;
    assert Dispatchable(retry.maxAttempts, h, claimed[i], rows[i]);
    RecordKeeps(retry.maxAttempts, h, rows[i].projectId, claimed[i], retry, attempt);
    forall j | 0 <= j < i ensures claimed[j] in u.deliveries && u.deliveries[claimed[j]].status == statuses[j] {
      assert claimed[..i][j] == claimed[j] && statuses[..i][j] == statuses[j];
    }
    forall j | i + 1 <= j < |claimed| ensures Dispatchable(retry.maxAttempts, u, claimed[j], rows[j]) {
      assert Dispatchable(retry.maxAttempts, h, claimed[j], rows[j]);
    }
  }

  lemma {:induction false} NoFanOutAfter(h: Hub, event: WebhookEvent, rows: seq<Id>, i: nat, uuids: nat -> Id)
    requires i < |rows| && FanOut(h, event, rows[..i + 1], uuids).None?
    ensures FanOut(h, event, rows, uuids).None?
    decreases |rows|
  {
    hide Insertable, Wants;
    if i + 1 == |rows| {
      assert rows[..i + 1] == rows;
    } else {
      assert rows[..|rows| - 1][..i + 1] == rows[..i + 1];
      NoFanOutAfter(h, event, rows[..|rows| - 1], i, uuids);
    }
  }
}
