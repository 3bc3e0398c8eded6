/** app/rate_limit.py: the fixed-window limiter with its periodic eviction, against a plain
    count over the whole history of checks. Time is real; int() truncates toward zero and
    // floors. */
module RateLimit {
  import opened Ordering

  type Key = (string, string)

  datatype Decision = Decision(allowed: bool, limit: int, remaining: int, resetAt: int, retryAfter: int)

  datatype LimitError = LimitNotPositive | WindowNotPositive

  /** Each key's last window with its count, and the number of checks so far. */
  datatype State = State(entries: map<Key, (int, int)>, checks: nat)

  datatype Request = Request(key: Key, limit: int, window: int, now: real)

  const EVICTION_PERIOD := 1024

  function Truncate(x: real): int {
    if x >= 0.0 then x.Floor else -(-x).Floor
  }

  function Ceiling(x: real): int {
    -(-x).Floor
  }

  function WindowStart(now: real, window: int): int
    requires window >= 1
  {
    Truncate(now) / window * window
  }

  function RetryAfter(now: real, window: int): int
    requires window >= 1
  {
    var wait := Ceiling((WindowStart(now, window) + window) as real - now);
    if wait >= 1 then wait else 1
  }

  // ---------------------------------------------------------------- one check

  function CountIn(s: State, key: Key, window: int): int {
    if key in s.entries && s.entries[key].0 == window then s.entries[key].1 else 0
  }

  function Live(entries: map<Key, (int, int)>, window: int): map<Key, (int, int)> {
    map k | k in entries && entries[k].0 >= window :: entries[k]
  }

  predicate Admits(s: State, q: Request)
    requires q.window >= 1
  {
    CountIn(s, q.key, WindowStart(q.now, q.window)) < q.limit
  }

  function After(s: State, q: Request): State
    requires q.window >= 1
  {
    var start := WindowStart(q.now, q.window);
    var entries := if Admits(s, q) then s.entries[q.key := (start, CountIn(s, q.key, start) + 1)] else s.entries;
    State(if (s.checks + 1) % EVICTION_PERIOD == 0 then Live(entries, start) else entries, s.checks + 1)
  }

  class FixedWindowRateLimiter {
    var entries: map<Key, (int, int)>
    var checks: nat

    constructor ()
      ensures View() == State(map[], 0)
    {
      entries, checks := map[], 0;
    }

    function View(): State
      reads this
    {
      State(entries, checks)
    }

    /** Allowed exactly below the limit; a refused check only counts towards eviction. */
    method Check(policy: string, subject: string, limit: int, windowSeconds: int, now: real)
      returns (r: Result<Decision, LimitError>)
      modifies this
      ensures r.Err? <==> limit < 1 || windowSeconds < 1
      ensures r.Err? ==> View() == old(View())
      ensures limit >= 1 && windowSeconds >= 1 ==>
                var q := Request((policy, subject), limit, windowSeconds, now);
                var count := CountIn(old(View()), q.key, WindowStart(now, windowSeconds));
                && View() == After(old(View()), q)
                && r.value.allowed == Admits(old(View()), q)
                && r.value.remaining == (if count < limit then limit - count - 1 else 0)
                && r.value.limit == limit && r.value.retryAfter == RetryAfter(now, windowSeconds)
                && r.value.resetAt == WindowStart(now, windowSeconds) + windowSeconds
    {
      if limit < 1 {
        return Err(LimitNotPositive);
      }
      if windowSeconds < 1 {
        return Err(WindowNotPositive);
      }
      var windowStart := WindowStart(now, windowSeconds);
      var resetAt := windowStart + windowSeconds;
      var key := (policy, subject);
      var storedWindow, count := windowStart, 0;
      if key in entries {
        storedWindow, count := entries[key].0, entries[key].1;
      }
      if storedWindow != windowStart {
        count := 0;
      }
      var allowed := count < limit;
      if allowed {
        count := count + 1;
        entries := entries[key := (windowStart, count)];
      }
      checks := checks + 1;
      if checks % EVICTION_PERIOD == 0 {
        RemoveExpired(windowStart);
      }
      r := Ok(Decision(allowed, limit, if limit - count > 0 then limit - count else 0, resetAt,
                       RetryAfter(now, windowSeconds)));
    }

    /** Deletes the expired keys one by one. */
    method RemoveExpired(currentWindow: int)
      modifies this`entries
      ensures entries == Live(old(entries), currentWindow)
    {
      var expired := set k | k in entries && entries[k].0 < currentWindow;
      ghost var all := expired;
      while expired != {}
        invariant expired <= all
        invariant forall k :: k in entries <==> k in old(entries) && k !in all - expired
        invariant forall k :: k in entries ==> entries[k] == old(entries)[k]
        decreases |expired|
      {
        var key :| key in expired;
        entries := entries - {key};
        expired := expired - {key};
      }
      forall k ensures k in entries <==> k in Live(old(entries), currentWindow) {
        assert k in all <==> k in old(entries) && old(entries)[k].0 < currentWindow;
      }
    }
  }

  // ---------------------------------------------------------------- the plain count

  datatype Event = Event(request: Request, allowed: bool)

  /** How many checks of a key were allowed in a window. */
  function AllowedIn(history: seq<Event>, key: Key, window: int): nat
    requires forall i :: 0 <= i < |history| ==> history[i].request.window >= 1
  {
    if history == [] then 0
    else
      var last := history[|history| - 1];
      AllowedIn(history[..|history| - 1], key, window)
      + if last.allowed && last.request.key == key && WindowStart(last.request.now, last.request.window) == window
        then 1 else 0
  }

  ghost predicate Valid(requests: seq<Request>) {
    forall i :: 0 <= i < |requests| ==> requests[i].window >= 1 && requests[i].limit >= 1
  }

  function Run(requests: seq<Request>): State
    requires Valid(requests)
  {
    if requests == [] then State(map[], 0)
    else After(Run(requests[..|requests| - 1]), requests[|requests| - 1])
  }

  /** The limiter's own answers, in order. */
  function Answers(requests: seq<Request>): (events: seq<Event>)
    requires Valid(requests)
    ensures |events| == |requests| && forall i :: 0 <= i < |events| ==> events[i].request == requests[i]
  {
    if requests == [] then []
    else
      var n := |requests| - 1;
      Answers(requests[..n]) + [Event(requests[n], Admits(Run(requests[..n]), requests[n]))]
  }

  /** One window length for everybody, and a clock that never goes back. */
  ghost predicate Steady(requests: seq<Request>, window: int) {
    && (forall i :: 0 <= i < |requests| ==> requests[i].window == window)
    && (forall i, j :: 0 <= i < j < |requests| ==> requests[i].now <= requests[j].now)
  }

  lemma TruncateMonotone(x: real, y: real)
    requires x <= y
    ensures Truncate(x) <= Truncate(y)
  {
  }

  lemma WindowStartMonotone(x: real, y: real, window: int)
    requires x <= y && window >= 1
    ensures WindowStart(x, window) <= WindowStart(y, window)
  {
    TruncateMonotone(x, y);
    FloorMonotone(Truncate(x), Truncate(y), window);
  }

  lemma ProductMonotone(a: int, b: int, c: int)
    requires c >= 1
    ensures a <= b ==> a * c <= b * c
  {
    if a <= b {
      assert (b - a) * c >= 0;
      assert b * c - a * c == (b - a) * c;
    }
  }

  lemma ProductStep(p: int, q: int, window: int)
    requires window >= 1
    ensures p < q ==> p * window + window <= q * window
  {
    ProductMonotone(p + 1, q, window);
    assert (p + 1) * window == p * window + window;
  }

  /** A quotient is determined by its bounds. */
  lemma QuotientIs(a: int, q: int, window: int)
    requires window >= 1 && q * window <= a < q * window + window
    ensures a / window == q
  {
    QuotientBounds(a, window);
    ProductStep(a / window, q, window);
    ProductStep(q, a / window, window);
  }

  lemma QuotientBounds(a: int, window: int)
    requires window >= 1
    ensures a / window * window <= a < a / window * window + window
  {
    assert a == a / window * window + a % window;
  }

  lemma FloorMonotone(a: int, b: int, window: int)
    requires a <= b && window >= 1
    ensures a / window <= b / window && a / window * window <= b / window * window
  {
    QuotientBounds(a, window);
    QuotientBounds(b, window);
    ProductStep(b / window, a / window, window);
    ProductMonotone(a / window, b / window, window);
  }

  lemma NothingCounted(key: Key, w: int)
    ensures CountIn(State(map[], 0), key, w) == 0
  {
  }

  lemma {:induction false} LastAnswer(requests: seq<Request>)
    requires Valid(requests) && requests != []
    ensures var n := |requests| - 1;
            Answers(requests)[n] == Event(requests[n], Admits(Run(requests[..n]), requests[n]))
  {
    hide Admits, Run;
  }

  lemma {:induction false} AnswersOfPrefix(requests: seq<Request>, i: nat)
    requires Valid(requests) && i <= |requests|
    ensures Answers(requests)[..i] == Answers(requests[..i])
    decreases |requests|
  {
    if i < |requests| {
      var n := |requests| - 1;
      AnswersOfPrefix(requests[..n], i);
      assert requests[..n][..i] == requests[..i];
      assert Answers(requests)[..i] == Answers(requests[..n])[..i];
    } else {
      assert requests[..i] == requests;
    }
  }

  /** A clock that never goes back, and one window length for each key. */
  ghost predicate Orderly(requests: seq<Request>) {
    && (forall i, j :: 0 <= i < j < |requests| ==> requests[i].now <= requests[j].now)
    && (forall i, j :: 0 <= i < j < |requests| && requests[i].key == requests[j].key ==>
          requests[i].window == requests[j].window)
  }

  /** Check j evicts, and its own window starts after w: an entry of window w is forgotten. */
  predicate Forgets(requests: seq<Request>, j: int, w: int) {
    0 <= j < |requests| && (j + 1) % EVICTION_PERIOD == 0 && requests[j].window >= 1
    && WindowStart(requests[j].now, requests[j].window) > w
  }

  /** The number of checks up to and including the last one that forgot window w. */
  function Restart(requests: seq<Request>, w: int): (n: nat)
    ensures n <= |requests| && (n > 0 ==> Forgets(requests, n - 1, w))
    ensures forall j :: n <= j < |requests| ==> !Forgets(requests, j, w)
  {
    if requests == [] then 0
    else
      var n := |requests| - 1;
      if Forgets(requests, n, w) then n + 1
      else
        assert forall j :: 0 <= j < n ==> Forgets(requests[..n], j, w) == Forgets(requests, j, w);
        Restart(requests[..n], w)
  }

  lemma {:induction false} ChecksCount(requests: seq<Request>)
    requires Valid(requests)
    ensures Run(requests).checks == |requests|
    decreases |requests|
  {
    hide WindowStart, Admits;
    if requests != [] {
      ChecksCount(requests[..|requests| - 1]);
    }
  }

  /** No entry of a key is of a window that none of its checks has reached. */
  lemma {:induction false} OwnEntriesPast(requests: seq<Request>, key: Key, w: int)
    requires Valid(requests)
    requires forall i :: 0 <= i < |requests| && requests[i].key == key ==> WindowStart(requests[i].now, requests[i].window) <= w
    ensures key in Run(requests).entries ==> Run(requests).entries[key].0 <= w
    decreases |requests|
  {
    hide WindowStart, Admits;
    if requests != [] {
      OwnEntriesPast(requests[..|requests| - 1], key, w);
    }
  }

  /** One check at any window: an eviction past w forgets w, and otherwise w's count grows
      exactly with what is allowed in it. */
  lemma CheckCountsOrForgets(s: State, q: Request, key: Key, w: int)
    requires q.window >= 1
    requires key in s.entries ==> s.entries[key].0 <= w
    requires q.key == key ==> WindowStart(q.now, q.window) <= w
    requires q.key == key && key in s.entries ==> s.entries[key].0 <= WindowStart(q.now, q.window)
    ensures CountIn(After(s, q), key, w)
            == if (s.checks + 1) % EVICTION_PERIOD == 0 && WindowStart(q.now, q.window) > w then 0
               else CountIn(s, key, w) + if Admits(s, q) && key == q.key && w == WindowStart(q.now, q.window) then 1 else 0
  {
    hide WindowStart;
  }

  /** A key's entry counts what was allowed since its window was last forgotten. */
  lemma {:induction false} EntriesCountSinceForgotten(requests: seq<Request>, key: Key, w: int)
    requires Valid(requests) && Orderly(requests)
    requires forall i :: 0 <= i < |requests| && requests[i].key == key ==> WindowStart(requests[i].now, requests[i].window) <= w
    ensures CountIn(Run(requests), key, w) == AllowedIn(Answers(requests)[Restart(requests, w)..], key, w)
    decreases |requests|
  {
    hide WindowStart, CountIn, After, Admits, Orderly, Restart, AllowedIn;
    if requests == [] {
      NothingCounted(key, w);
      NothingAllowed(key, w);
      assert Answers(requests)[Restart(requests, w)..] == [];
    } else {
      var n := |requests| - 1;
      var before, q := requests[..n], requests[n];
      OrderlyPrefix(requests, n);
      EntriesCountSinceForgotten(before, key, w);
      ChecksCount(before);
      OwnEntriesPast(before, key, w);
      if q.key == key {
        OwnWindowsPast(requests);
        OwnEntriesPast(before, key, WindowStart(q.now, q.window));
      }
      CheckCountsOrForgets(Run(before), q, key, w);
      LastAnswer(requests);
      RestartStep(requests, w);
      if Forgets(requests, n, w) {
        NothingAllowed(key, w);
        assert Answers(requests)[n + 1..] == [];
      } else {
        var start := Restart(before, w);
        assert Answers(requests)[start..] == Answers(before)[start..] + [Answers(requests)[n]];
        AllowedOneMore(Answers(before)[start..], Answers(requests)[n], key, w);
      }
    }
  }

  lemma {:induction false} RestartStep(requests: seq<Request>, w: int)
    requires requests != []
    ensures var n := |requests| - 1;
            Restart(requests, w) == if Forgets(requests, n, w) then n + 1 else Restart(requests[..n], w)
  {
    hide Forgets;
  }

  lemma NothingAllowed(key: Key, w: int)
    ensures AllowedIn([], key, w) == 0
  {
  }

  lemma AllowedOneMore(history: seq<Event>, event: Event, key: Key, w: int)
    requires event.request.window >= 1 && forall i :: 0 <= i < |history| ==> history[i].request.window >= 1
    ensures AllowedIn(history + [event], key, w)
            == AllowedIn(history, key, w)
               + if event.allowed && event.request.key == key && WindowStart(event.request.now, event.request.window) == w
                 then 1 else 0
  {
    hide WindowStart;
    assert (history + [event])[..|history|] == history;
  }

  lemma {:induction false} OrderlyPrefix(requests: seq<Request>, n: nat)
    requires Orderly(requests) && n <= |requests|
    ensures Orderly(requests[..n])
  {
  }

  /** The earlier checks of the last check's key are of its window or an earlier one. */
  lemma {:induction false} OwnWindowsPast(requests: seq<Request>)
    requires Valid(requests) && Orderly(requests) && requests != []
    ensures var last := requests[|requests| - 1];
            forall i :: 0 <= i < |requests| && requests[i].key == last.key ==>
              WindowStart(requests[i].now, requests[i].window) <= WindowStart(last.now, last.window)
  {
    var last := requests[|requests| - 1];
    forall i | 0 <= i < |requests| && requests[i].key == last.key
      ensures WindowStart(requests[i].now, requests[i].window) <= WindowStart(last.now, last.window)
    {
      if i < |requests| - 1 {
        WindowStartMonotone(requests[i].now, last.now, last.window);
      }
    }
  }

  /** How many checks of check i's key were allowed in its window, among checks from..i. */
  function AllowedBefore(requests: seq<Request>, from: nat, i: nat): nat
    requires Valid(requests) && from <= i < |requests|
  {
    AllowedIn(Answers(requests)[from..i], requests[i].key, WindowStart(requests[i].now, requests[i].window))
  }

  /** With one window length for each key, check i is allowed exactly when fewer than its
      limit were allowed since its window was last forgotten. */
  lemma {:induction false} LimiterCountsSinceForgotten(requests: seq<Request>, i: nat)
    requires Valid(requests) && Orderly(requests) && i < |requests|
    ensures var w := WindowStart(requests[i].now, requests[i].window);
            Answers(requests)[i].allowed <==> AllowedBefore(requests, Restart(requests[..i], w), i) < requests[i].limit
  {
    hide WindowStart, After, AllowedIn, CountIn, Run, Orderly, Restart;
    var past, q := requests[..i + 1], requests[i];
    assert past[..i] == requests[..i] && past[i] == q;
    OrderlyPrefix(requests, i + 1);
    OrderlyPrefix(requests, i);
    OwnWindowsPast(past);
    forall k | 0 <= k < i && requests[..i][k].key == q.key
      ensures WindowStart(requests[..i][k].now, requests[..i][k].window) <= WindowStart(q.now, q.window)
    {
      assert requests[..i][k] == past[k];
    }
    EntriesCountSinceForgotten(requests[..i], q.key, WindowStart(q.now, q.window));
    LastAnswer(past);
    AnswersOfPrefix(requests, i);
    AnswersOfPrefix(requests, i + 1);
    assert Answers(requests)[i] == Answers(requests)[..i + 1][i];
    var start := Restart(requests[..i], WindowStart(q.now, q.window));
    assert Answers(requests[..i])[start..] == Answers(requests)[start..i];
  }

  /** With one window length for everybody nothing is forgotten, and the limiter and its
      eviction are a plain count: check i is allowed exactly when fewer than its limit of the
      earlier checks of its key in its window were. */
  lemma {:induction false} LimiterIsPlainCount(requests: seq<Request>, window: int, i: nat)
    requires Valid(requests) && Steady(requests, window) && i < |requests|
    ensures Answers(requests)[i].allowed
            <==> AllowedIn(Answers(requests)[..i], requests[i].key, WindowStart(requests[i].now, window)) < requests[i].limit
  {
    hide WindowStart, AllowedIn, Answers, Restart;
    LimiterCountsSinceForgotten(requests, i);
    forall j | 0 <= j < i ensures !Forgets(requests[..i], j, WindowStart(requests[i].now, window)) {
      WindowStartMonotone(requests[j].now, requests[i].now, window);
    }
    assert Answers(requests)[0..i] == Answers(requests)[..i];
  }

  // ---------------------------------------------------------------- how much is admitted

  ghost predicate FixedLimit(requests: seq<Request>, key: Key, limit: int) {
    forall i :: 0 <= i < |requests| && requests[i].key == key ==> requests[i].limit == limit
  }

  /** No window admits more than the limit. */
  lemma {:induction false} WindowAdmitsLimit(requests: seq<Request>, window: int, key: Key, limit: nat, w: int)
    requires Valid(requests) && Steady(requests, window) && FixedLimit(requests, key, limit)
    ensures AllowedIn(Answers(requests), key, w) <= limit
    decreases |requests|
  {
    if requests != [] {
      var n := |requests| - 1;
      WindowAdmitsLimit(requests[..n], window, key, limit, w);
      LimiterIsPlainCount(requests, window, n);
      assert Answers(requests)[..n] == Answers(requests[..n]);
    }
  }

  /** How many checks of a key were allowed at a time in [from, from + window). */
  function AllowedSince(history: seq<Event>, key: Key, from: real, window: int): nat {
    if history == [] then 0
    else
      var last := history[|history| - 1];
      AllowedSince(history[..|history| - 1], key, from, window)
      + if last.allowed && last.request.key == key && from <= last.request.now < from + window as real then 1 else 0
  }

  /** An interval of one window length meets at most two windows. */
  lemma IntervalMeetsTwoWindows(from: real, now: real, window: int)
    requires window >= 1 && from <= now < from + window as real
    ensures WindowStart(now, window) == WindowStart(from, window)
            || WindowStart(now, window) == WindowStart(from, window) + window
  {
    TruncateMonotone(from, now);
    assert Truncate(now) <= Truncate(from) + window;
    QuotientShift(Truncate(from), window);
    FloorMonotone(Truncate(from), Truncate(now), window);
    FloorMonotone(Truncate(now), Truncate(from) + window, window);
    assert Truncate(from) / window <= Truncate(now) / window <= Truncate(from) / window + 1;
  }

  lemma QuotientShift(a: int, window: int)
    requires window >= 1
    ensures (a + window) / window == a / window + 1
    ensures (a / window + 1) * window == a / window * window + window
  {
    QuotientBounds(a, window);
    assert (a / window + 1) * window == a / window * window + window;
    QuotientIs(a + window, a / window + 1, window);
  }

  lemma {:induction false} SinceIsTwoWindows(history: seq<Event>, key: Key, from: real, window: int)
    requires window >= 1 && forall i :: 0 <= i < |history| ==> history[i].request.window == window
    ensures AllowedSince(history, key, from, window)
            <= AllowedIn(history, key, WindowStart(from, window)) + AllowedIn(history, key, WindowStart(from, window) + window)
    decreases |history|
  {
    if history != [] {
      var last := history[|history| - 1];
      SinceIsTwoWindows(history[..|history| - 1], key, from, window);
      if from <= last.request.now < from + window as real {
        IntervalMeetsTwoWindows(from, last.request.now, window);
      }
    }
  }

  /** Any interval of one window length, wherever it starts, admits at most twice the limit. */
  lemma {:induction false} IntervalAdmitsTwiceLimit(requests: seq<Request>, window: int, key: Key, limit: nat, from: real)
    requires window >= 1 && Valid(requests) && Steady(requests, window) && FixedLimit(requests, key, limit)
    ensures AllowedSince(Answers(requests), key, from, window) <= 2 * limit
  {
    SinceIsTwoWindows(Answers(requests), key, from, window);
    WindowAdmitsLimit(requests, window, key, limit, WindowStart(from, window));
    WindowAdmitsLimit(requests, window, key, limit, WindowStart(from, window) + window);
  }

  // ---------------------------------------------------------------- retry_after

  lemma WindowHolds(now: real, window: int)
    requires window >= 1
    ensures WindowStart(now, window) <= Truncate(now) < WindowStart(now, window) + window
    ensures Truncate(now) % window == Truncate(now) - WindowStart(now, window)
    ensures (WindowStart(now, window) + window) / window * window == WindowStart(now, window) + window
  {
    QuotientBounds(Truncate(now), window);
    var q := Truncate(now) / window;
    assert q * window + window == (q + 1) * window;
    QuotientIs(q * window + window, q + 1, window);
  }

  lemma LaterWindow(reset: int, later: real, window: int)
    requires window >= 1 && later >= reset as real && reset / window * window == reset
    ensures WindowStart(later, window) >= reset
  {
    TruncateMonotone(reset as real, later);
    assert Truncate(reset as real) == reset;
    FloorMonotone(reset, Truncate(later), window);
  }

  lemma CeilingBounds(x: real, n: int)
    ensures x <= Ceiling(x) as real
    ensures Ceiling(x) <= n <==> x <= n as real
  {
  }

  lemma BoundaryAtMostNow(now: real, start: int)
    requires start <= Truncate(now)
    ensures start as real <= now <==> !(now < 0.0 && now != now.Floor as real && Truncate(now) == start)
  {
    if now >= 0.0 {
      assert Truncate(now) as real <= now;
    } else {
      var f := Truncate(now);
      assert (f - 1) as real < now <= f as real;
      WholeTime(now, f);
      if start < f {
        assert start as real <= (f - 1) as real;
      }
    }
  }

  lemma WholeTime(now: real, f: int)
    requires (f - 1) as real < now <= f as real
    ensures now == now.Floor as real <==> now == f as real
  {
    var floor := now.Floor;
    assert floor as real <= now < floor as real + 1.0;
    assert f - 1 <= floor <= f;
    if now != f as real {
      assert floor != f;
    }
  }

  /** Waiting retry_after seconds always reaches a later window. It is between one second and
      the window length, except for a negative fractional time that truncates onto a window
      boundary, where it is one second longer. */
  lemma RetryReachesLaterWindow(now: real, window: int)
    requires window >= 1
    ensures RetryAfter(now, window) >= 1
    ensures WindowStart(now + RetryAfter(now, window) as real, window) >= WindowStart(now, window) + window
    ensures RetryAfter(now, window) <= window
            <==> !(now < 0.0 && now != now.Floor as real && Truncate(now) % window == 0)
  {
    WindowHolds(now, window);
    var start := WindowStart(now, window);
    var reset := start + window;
    CeilingBounds(reset as real - now, window);
    BoundaryAtMostNow(now, start);
    LaterWindow(reset, now + RetryAfter(now, window) as real, window);
    hide WindowStart, Truncate, Ceiling;
    assert RetryAfter(now, window) <= window <==> start as real <= now;
  }

  /** Half a second before the epoch truncates to the epoch, a whole window too late. */
  lemma RetryAfterExceedsWindow()
    ensures RetryAfter(-0.5, 60) == 61
  {
  }

  // ---------------------------------------------------------------- windows of different lengths

  /** Check i's window was forgotten at check j and not again before i. */
  predicate LastForgottenAt(requests: seq<Request>, j: int, i: nat)
    requires i < |requests| && requests[i].window >= 1
  {
    var w := WindowStart(requests[i].now, requests[i].window);
    j < i && Forgets(requests, j, w) && forall k :: j < k < i ==> !Forgets(requests, k, w)
  }

  /** Exactly when the eviction shows: the answer of check i differs from the plain count if
      and only if its window, with allowed checks in it, was forgotten at some earlier
      evicting check whose window starts later, and the count since is below the limit while
      the full count is not. */
  lemma {:induction false} EvictionShowsIff(requests: seq<Request>, i: nat)
    requires Valid(requests) && Orderly(requests) && i < |requests|
    ensures (Answers(requests)[i].allowed != (AllowedBefore(requests, 0, i) < requests[i].limit))
            <==> exists j :: LastForgottenAt(requests, j, i)
                             && AllowedIn(Answers(requests)[..j + 1], requests[i].key,
                                          WindowStart(requests[i].now, requests[i].window)) > 0
                             && AllowedBefore(requests, j + 1, i) < requests[i].limit <= AllowedBefore(requests, 0, i)
  {
    hide WindowStart, AllowedIn, Orderly, Answers, Restart;
    var w := WindowStart(requests[i].now, requests[i].window);
    var start := Restart(requests[..i], w);
    LimiterCountsSinceForgotten(requests, i);
    assert forall j :: 0 <= j < i ==> Forgets(requests[..i], j, w) == Forgets(requests, j, w);
    if start > 0 {
      assert LastForgottenAt(requests, start - 1, i);
      CountSplits(requests, start, i);
    }
    forall j | LastForgottenAt(requests, j, i) ensures j == start - 1 {
    }
  }

  lemma {:induction false} CountSplits(requests: seq<Request>, start: nat, i: nat)
    requires Valid(requests) && start <= i < |requests|
    ensures AllowedBefore(requests, 0, i)
            == AllowedIn(Answers(requests)[..start], requests[i].key, WindowStart(requests[i].now, requests[i].window))
               + AllowedBefore(requests, start, i)
  {
    hide WindowStart, AllowedIn, Answers;
    AllowedAdds(Answers(requests)[..start], Answers(requests)[start..i], requests[i].key,
                WindowStart(requests[i].now, requests[i].window));
    assert Answers(requests)[0..i] == Answers(requests)[..start] + Answers(requests)[start..i];
  }

  lemma {:induction false} AllowedAdds(a: seq<Event>, b: seq<Event>, key: Key, w: int)
    requires forall i :: 0 <= i < |a| ==> a[i].request.window >= 1
    requires forall i :: 0 <= i < |b| ==> b[i].request.window >= 1
    ensures AllowedIn(a + b, key, w) == AllowedIn(a, key, w) + AllowedIn(b, key, w)
    decreases |b|
  {
    hide WindowStart;
    if b == [] {
      assert a + b == a;
    } else {
      var n := |b| - 1;
      AllowedAdds(a, b[..n], key, w);
      assert (a + b)[..|a + b| - 1] == a + b[..n] && (a + b)[|a + b| - 1] == b[n];
    }
  }

  /** n checks of one key at time zero, with a one-second window. */
  function Repeated(n: nat): seq<Request> {
    seq(n, _ => Request(("short", "b"), 1, 1, 0.0))
  }

  lemma {:induction false} RepeatedRun(first: Request, n: nat)
    requires n <= 1022 && first == Request(("long", "a"), 1, 3600, 0.0)
    ensures Valid([first] + Repeated(n))
    ensures var s := Run([first] + Repeated(n)); s.checks == n + 1 && CountIn(s, first.key, 0) == 1
  {
    var requests := [first] + Repeated(n);
    WindowZero();
    if n == 0 {
      assert requests[..0] == [];
    } else {
      RepeatedRun(first, n - 1);
      assert requests[..n] == [first] + Repeated(n - 1);
    }
  }

  lemma WindowZero()
    ensures WindowStart(0.0, 3600) == 0 && WindowStart(0.0, 1) == 0 && WindowStart(10.0, 1) == 10
            && WindowStart(11.0, 3600) == 0
  {
    assert Truncate(0.0) == 0 && Truncate(10.0) == 10 && Truncate(11.0) == 11;
  }

  lemma Evicts(s: State, key: Key, q: Request)
    requires s.checks == 1023 && q.window >= 1 && WindowStart(q.now, q.window) == 10 && key != q.key
    ensures CountIn(After(s, q), key, 0) == 0
  {
  }

  /** The last check is admitted although the first one, of its key and window, used the limit. */
  ghost predicate AdmittedTwice(requests: seq<Request>, n: nat) {
    && Valid(requests) && Orderly(requests) && 0 < n && n + 1 == |requests|
    && requests[n].limit == 1 && requests[n].key == requests[0].key
    && WindowStart(requests[n].now, requests[n].window) == WindowStart(requests[0].now, requests[0].window)
    && Admits(Run([]), requests[0]) && Admits(Run(requests[..n]), requests[n])
  }

  /** It does happen: the thousand-and-twenty-fourth check forgets a longer window that is
      still running, and its key is admitted a second time although its limit is one. */
  lemma EvictionShowsAcrossWindows()
    ensures exists requests, n :: AdmittedTwice(requests, n)
  {
    hide After, WindowStart, CountIn, Run, Valid;
    var first := Request(("long", "a"), 1, 3600, 0.0);
    var evicting := Request(("short", "b"), 1, 1, 10.0);
    var again := Request(("long", "a"), 1, 3600, 11.0);
    var before := [first] + Repeated(1022);
    var all := before + [evicting] + [again];
    RepeatedRun(first, 1022);
    NothingCounted(first.key, 0);
    WindowZero();
    ValidOneMore(before, evicting);
    ValidOneMore(before + [evicting], again);
    assert all[..1024] == before + [evicting];
    Evicts(Run(before), first.key, evicting);
    RunNothing();
    assert AdmittedTwice(all, 1024);
  }

  lemma RunNothing()
    ensures Run([]) == State(map[], 0)
  {
  }

  lemma ValidOneMore(requests: seq<Request>, q: Request)
    requires Valid(requests) && q.window >= 1 && q.limit >= 1
    ensures Valid(requests + [q]) && Run(requests + [q]) == After(Run(requests), q)
  {
    hide After;
    assert (requests + [q])[..|requests|] == requests;
  }
}
