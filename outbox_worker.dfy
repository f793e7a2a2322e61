/** The outbox dispatcher (backend/app/jobs/outbox_worker.py): a periodic batch job that
    picks the oldest ready events, routes each by its code prefix to a delivery handler,
    and marks it delivered or counts a failed attempt with a flat 60-second backoff.
    The delivery handlers are stand-ins in the source: each succeeds unless the payload
    asks it to fail. The manual retry of the admin dashboard
    (backend/app/blueprints/admin_dashboard_api.py) is modelled at the end. */
module OutboxWorker {
  import opened Wrappers
  import opened Json
  import opened SystemModels
  import ErrorHandler

  const BackoffSeconds: int := 60
  const FallbackMaxAttempts: int := 3

  /** What happened when an event was handed to its handler. `Raised` is an exception
      escaping the handler, with `str(exc)`. */
  datatype HandlerOutcome = Succeeded | FailedAttempt | Raised(message: string)

  /** The three handlers share one body: read `event.payload or {}` and fail when its
      `force_fail` entry is truthy. A truthy payload that is not a dictionary has no
      `.get`, so Python raises AttributeError. */
  function ForceFailHandler(e: EventOutbox): (r: HandlerOutcome)
    ensures e.payload.Obj? ==> (r == Succeeded <==> !Truthy(Get(e.payload.fields, "force_fail", Bool(false))))
    ensures e.payload.Obj? ==> !r.Raised?
    ensures r.Raised? <==> Truthy(e.payload) && !e.payload.Obj?
  {
    var payload := if Truthy(e.payload) then e.payload else Obj(map[]);
    match payload
    case Obj(fields) =>
      if Truthy(Get(fields, "force_fail", Bool(false))) then FailedAttempt else Succeeded
    case _ =>
      Raised("'" + PyTypeName(payload) + "' object has no attribute 'get'")
  }

  function SendEmailViaProvider(e: EventOutbox): HandlerOutcome { ForceFailHandler(e) }
  function PostWebhook(e: EventOutbox): HandlerOutcome { ForceFailHandler(e) }
  function RecordAnalyticsEvent(e: EventOutbox): HandlerOutcome { ForceFailHandler(e) }

  predicate StartsWith(s: string, prefix: string) {
    |prefix| <= |s| && s[..|prefix|] == prefix
  }

  datatype Route = Email | Webhook | Analytics | Unrouted

  /** The three prefixes start with different letters, so at most one matches. */
  lemma PrefixesExclusive(code: string)
    ensures StartsWith(code, "NOTIFY_") ==> !StartsWith(code, "WEBHOOK_") && !StartsWith(code, "ANALYTICS_")
    ensures StartsWith(code, "WEBHOOK_") ==> !StartsWith(code, "ANALYTICS_")
  {
    if StartsWith(code, "NOTIFY_") { assert code[0] == "NOTIFY_"[0]; }
    if StartsWith(code, "WEBHOOK_") { assert code[0] == "WEBHOOK_"[0]; }
    if StartsWith(code, "ANALYTICS_") { assert code[0] == "ANALYTICS_"[0]; }
  }

  /** The handler an event code selects; since the prefixes exclude each other, the
      order in which the source tests them does not matter. */
  function RouteOf(code: string): (r: Route)
    ensures r == Email <==> StartsWith(code, "NOTIFY_")
    ensures r == Webhook <==> StartsWith(code, "WEBHOOK_")
    ensures r == Analytics <==> StartsWith(code, "ANALYTICS_")
    ensures r == Unrouted <==> !StartsWith(code, "NOTIFY_") && !StartsWith(code, "WEBHOOK_") && !StartsWith(code, "ANALYTICS_")
  {
    PrefixesExclusive(code);
    if StartsWith(code, "NOTIFY_") then Email
    else if StartsWith(code, "WEBHOOK_") then Webhook
    else if StartsWith(code, "ANALYTICS_") then Analytics
    else Unrouted
  }

  /** `_process_single_event`: route by prefix; codes with no handler succeed. */
  function ProcessSingleEvent(e: EventOutbox): HandlerOutcome {
    match RouteOf(e.eventCode)
    case Email => SendEmailViaProvider(e)
    case Webhook => PostWebhook(e)
    case Analytics => RecordAnalyticsEvent(e)
    case Unrouted => Succeeded
  }

  /** An unknown code always succeeds without looking at the payload; a routed event
      with a dictionary payload succeeds iff its `force_fail` entry is falsy. */
  lemma DispatchOutcome(e: EventOutbox)
    ensures RouteOf(e.eventCode) == Unrouted ==> ProcessSingleEvent(e) == Succeeded
    ensures RouteOf(e.eventCode) != Unrouted && e.payload.Obj? ==>
              (ProcessSingleEvent(e) == Succeeded <==> !Truthy(Get(e.payload.fields, "force_fail", Bool(false))))
    ensures RouteOf(e.eventCode) != Unrouted && e.payload.Obj? ==> !ProcessSingleEvent(e).Raised?
  {
  }

  /** `event.max_attempts or 3`: a zero limit falls back to three. */
  function EffectiveMaxAttempts(e: EventOutbox): int {
    if e.maxAttempts == 0 then FallbackMaxAttempts else e.maxAttempts
  }

  /** The query's filter: `status == 'ready' AND attempts < max_attempts AND ready_at <= now`. */
  predicate Eligible(e: EventOutbox, now: Instant) {
    e.status == Ready && e.attempts < e.maxAttempts && e.readyAt <= now
  }

  /** A counted failure (handler returned false, or raised with message `err`). */
  function AfterFailure(e: EventOutbox, now: Instant, err: Option<string>): EventOutbox {
    var e1 := e.(attempts := e.attempts + 1, lastAttemptAt := Some(now),
                 errorMessage := if err.Some? then err else e.errorMessage);
    if e1.attempts >= EffectiveMaxAttempts(e) then e1.(status := Failed, failedAt := Some(now))
    else e1.(readyAt := now + BackoffSeconds)
  }

  /** The new state of one event of the batch processed at `now`. */
  function ProcessEvent(e: EventOutbox, now: Instant): (r: EventOutbox)
    requires e.status == Ready
    ensures r.status == Delivered <==> ProcessSingleEvent(e) == Succeeded
    ensures ProcessSingleEvent(e) == Succeeded ==>
              r.attempts == e.attempts && r.deliveredAt == Some(now) && r.readyAt == e.readyAt
    ensures ProcessSingleEvent(e) != Succeeded ==> r.attempts == e.attempts + 1 && r.lastAttemptAt == Some(now)
    ensures ProcessSingleEvent(e) != Succeeded ==>
              (r.status == Failed <==> e.attempts + 1 >= EffectiveMaxAttempts(e))
    ensures r.status == Failed ==> r.failedAt == Some(now)
    ensures r.status == Ready ==> r.readyAt == now + BackoffSeconds && r.attempts < EffectiveMaxAttempts(e)
    ensures ProcessSingleEvent(e).Raised? ==> r.errorMessage == Some(ProcessSingleEvent(e).message)
    ensures StatusAllowed(r.status)
    ensures r.id == e.id && r.tenantId == e.tenantId && r.eventCode == e.eventCode &&
            r.payload == e.payload && r.maxAttempts == e.maxAttempts
  {
    match ProcessSingleEvent(e)
    case Succeeded => e.(status := Delivered, deliveredAt := Some(now))
    case FailedAttempt => AfterFailure(e, now, None)
    case Raised(m) => AfterFailure(e, now, Some(m))
  }

  /** An event enters `processed` unless its handler raised. */
  predicate Counted(e: EventOutbox) {
    !ProcessSingleEvent(e).Raised?
  }

  // ---------------------------------------------------------------------------
  // Selecting the batch: eligible rows, oldest `ready_at` first, at most `limit`.
  // Rows with equal `ready_at` keep table order (the database leaves that order open).
  // ---------------------------------------------------------------------------

  predicate IndicesIn(s: seq<nat>, n: nat) {
    forall k :: 0 <= k < |s| ==> s[k] < n
  }

  predicate Distinct(s: seq<nat>) {
    forall a, b :: 0 <= a < b < |s| ==> s[a] != s[b]
  }

  predicate SortedByReadyAt(events: seq<EventOutbox>, s: seq<nat>)
    requires IndicesIn(s, |events|)
  {
    forall a, b :: 0 <= a < b < |s| ==> events[s[a]].readyAt <= events[s[b]].readyAt
  }

  /** Indices of the eligible rows among the first `n`, in table order. */
  function EligibleIndices(events: seq<EventOutbox>, now: Instant, n: nat): (r: seq<nat>)
    requires n <= |events|
    ensures IndicesIn(r, n)
    ensures forall j :: 0 <= j < n ==> (j in r <==> Eligible(events[j], now))
    ensures forall a, b :: 0 <= a < b < |r| ==> r[a] < r[b]
  {
    if n == 0 then []
    else EligibleIndices(events, now, n - 1) + (if Eligible(events[n - 1], now) then [n - 1] else [])
  }

  /** Insert index `i` after every index whose row is no younger (stable). */
  function InsertByReadyAt(events: seq<EventOutbox>, i: nat, s: seq<nat>): (r: seq<nat>)
    requires i < |events| && IndicesIn(s, |events|)
    ensures IndicesIn(r, |events|) && |r| == |s| + 1
    ensures forall x :: x in r <==> x == i || x in s
  {
    if s == [] then [i]
    else if events[i].readyAt < events[s[0]].readyAt then [i] + s
    else [s[0]] + InsertByReadyAt(events, i, s[1..])
  }

  function SortByReadyAt(events: seq<EventOutbox>, s: seq<nat>): (r: seq<nat>)
    requires IndicesIn(s, |events|)
    ensures IndicesIn(r, |events|) && |r| == |s|
    ensures forall x :: x in r <==> x in s
  {
    if s == [] then []
    else InsertByReadyAt(events, s[|s| - 1], SortByReadyAt(events, s[..|s| - 1]))
  }

  lemma {:induction false} InsertKeepsOrder(events: seq<EventOutbox>, i: nat, s: seq<nat>)
    requires i < |events| && IndicesIn(s, |events|)
    requires SortedByReadyAt(events, s)
    ensures SortedByReadyAt(events, InsertByReadyAt(events, i, s))
  {
    if s != [] && events[i].readyAt >= events[s[0]].readyAt {
      InsertKeepsOrder(events, i, s[1..]);
      var r := InsertByReadyAt(events, i, s);
      var t := InsertByReadyAt(events, i, s[1..]);
      assert r == [s[0]] + t;
      forall k | 0 <= k < |t| ensures events[s[0]].readyAt <= events[t[k]].readyAt {
        assert t[k] in t;
        if t[k] != i {
          assert t[k] in s[1..];
          var m :| 0 <= m < |s[1..]| && s[1..][m] == t[k];
          assert s[m + 1] == t[k];
        }
      }
    }
  }

  lemma DistinctTail(s: seq<nat>)
    requires s != [] && Distinct(s)
    ensures Distinct(s[1..]) && s[0] !in s[1..]
  {
    assert forall m :: 0 <= m < |s[1..]| ==> s[1..][m] == s[m + 1];
  }

  lemma DistinctCons(x: nat, t: seq<nat>)
    requires Distinct(t) && x !in t
    ensures Distinct([x] + t)
  {
    var r := [x] + t;
    forall a, b | 0 <= a < b < |r| ensures r[a] != r[b] {
      assert r[b] == t[b - 1];
      if a > 0 { assert r[a] == t[a - 1]; }
    }
  }

  lemma {:induction false} InsertKeepsDistinct(events: seq<EventOutbox>, i: nat, s: seq<nat>)
    requires i < |events| && IndicesIn(s, |events|)
    requires Distinct(s) && i !in s
    ensures Distinct(InsertByReadyAt(events, i, s))
  {
    if s == [] {
    } else if events[i].readyAt < events[s[0]].readyAt {
      DistinctCons(i, s);
    } else {
      DistinctTail(s);
      assert forall x :: x in s[1..] ==> x in s;
      InsertKeepsDistinct(events, i, s[1..]);
      DistinctCons(s[0], InsertByReadyAt(events, i, s[1..]));
    }
  }

  lemma {:induction false} SortIsOrderedAndDistinct(events: seq<EventOutbox>, s: seq<nat>)
    requires IndicesIn(s, |events|) && Distinct(s)
    ensures SortedByReadyAt(events, SortByReadyAt(events, s))
    ensures Distinct(SortByReadyAt(events, s))
  {
    if s != [] {
      var p := s[..|s| - 1];
      SortIsOrderedAndDistinct(events, p);
      InsertKeepsOrder(events, s[|s| - 1], SortByReadyAt(events, p));
      assert s[|s| - 1] !in p;
      InsertKeepsDistinct(events, s[|s| - 1], SortByReadyAt(events, p));
    }
  }

  /** The query: eligible rows ordered by `ready_at`, at most `limit` of them. */
  function SelectBatch(events: seq<EventOutbox>, now: Instant, limit: nat): (batch: seq<nat>)
    ensures IndicesIn(batch, |events|)
    ensures forall k :: k in batch ==> k < |events| && Eligible(events[k], now)
    ensures ReadyRows(events, batch) && Distinct(batch) && SortedByReadyAt(events, batch)
    ensures |batch| == Min(limit, |EligibleIndices(events, now, |events|)|)
  {
    var elig := EligibleIndices(events, now, |events|);
    SortIsOrderedAndDistinct(events, elig);
    var sorted := SortByReadyAt(events, elig);
    PrefixOfEligible(events, now, sorted, Min(limit, |sorted|));
    sorted[..Min(limit, |sorted|)]
  }

  /** A prefix of a sorted, duplicate-free list of eligible rows is one too. */
  lemma PrefixOfEligible(events: seq<EventOutbox>, now: Instant, s: seq<nat>, n: nat)
    requires IndicesIn(s, |events|) && Distinct(s) && SortedByReadyAt(events, s) && n <= |s|
    requires forall x :: x in s ==> x < |events| && Eligible(events[x], now)
    ensures IndicesIn(s[..n], |events|) && Distinct(s[..n]) && SortedByReadyAt(events, s[..n])
    ensures forall k :: k in s[..n] ==> k < |events| && Eligible(events[k], now)
    ensures ReadyRows(events, s[..n])
  {
    assert forall m :: 0 <= m < n ==> s[..n][m] == s[m] && s[m] in s;
  }

  /** In a sequence sorted by `ready_at`, every element of a prefix is no younger than
      any element outside it. */
  lemma SortedPrefixIsOldest(events: seq<EventOutbox>, s: seq<nat>, n: nat, j: nat, k: nat)
    requires IndicesIn(s, |events|) && SortedByReadyAt(events, s) && n <= |s|
    requires j in s && j !in s[..n] && k in s[..n]
    ensures events[k].readyAt <= events[j].readyAt
  {
    var pj :| 0 <= pj < |s| && s[pj] == j;
    var pk :| 0 <= pk < n && s[..n][pk] == k;
    assert forall m :: 0 <= m < n ==> s[..n][m] == s[m];
  }

  /** The batch is the oldest eligible rows: no eligible row left out is older than a
      selected one (the rest of the claim is `SelectBatch`'s contract). */
  lemma BatchIsOldestEligible(events: seq<EventOutbox>, now: Instant, limit: nat, j: nat, k: nat)
    requires j < |events| && Eligible(events[j], now)
    requires j !in SelectBatch(events, now, limit) && k in SelectBatch(events, now, limit)
    ensures events[k].readyAt <= events[j].readyAt
  {
    var elig := EligibleIndices(events, now, |events|);
    SortIsOrderedAndDistinct(events, elig);
    var sorted := SortByReadyAt(events, elig);
    var n := Min(limit, |sorted|);
    assert SelectBatch(events, now, limit) == sorted[..n];
    SortedPrefixIsOldest(events, sorted, n, j, k);
  }

  function Min(a: int, b: int): int { if a <= b then a else b }

  // ---------------------------------------------------------------------------
  // Processing the batch.
  // ---------------------------------------------------------------------------

  /** How many events of `batch` count as processed. */
  function CountCounted(events: seq<EventOutbox>, batch: seq<nat>): (n: nat)
    requires IndicesIn(batch, |events|)
    ensures n <= |batch|
  {
    if batch == [] then 0
    else CountCounted(events, batch[..|batch| - 1]) + (if Counted(events[batch[|batch| - 1]]) then 1 else 0)
  }

  predicate ReadyRows(events: seq<EventOutbox>, b: seq<nat>) {
    forall m :: 0 <= m < |b| ==> b[m] < |events| && events[b[m]].status == Ready
  }

  /** The table after the rows of `b` are processed at `now`, one after the other. */
  function ApplyBatch(events: seq<EventOutbox>, b: seq<nat>, now: Instant): (r: seq<EventOutbox>)
    requires ReadyRows(events, b)
    ensures |r| == |events|
  {
    if b == [] then events
    else
      var k := b[|b| - 1];
      ApplyBatch(events, b[..|b| - 1], now)[k := ProcessEvent(events[k], now)]
  }

  lemma {:induction false} ApplyBatchPointwise(events: seq<EventOutbox>, b: seq<nat>, now: Instant, j: nat)
    requires ReadyRows(events, b)
    requires Distinct(b) && j < |events|
    ensures ApplyBatch(events, b, now)[j] == if j in b then ProcessEvent(events[j], now) else events[j]
  {
    if b != [] {
      var p := b[..|b| - 1];
      assert b == p + [b[|b| - 1]];
      ApplyBatchPointwise(events, p, now, j);
    }
  }

  /** The table after one run at `now`: every row of the batch processed once, every
      other row as it was. */
  function AfterRun(events: seq<EventOutbox>, now: Instant, limit: nat): (r: seq<EventOutbox>)
    ensures |r| == |events|
    ensures forall j :: 0 <= j < |events| ==>
              r[j] == if j in SelectBatch(events, now, limit) then ProcessEvent(events[j], now) else events[j]
  {
    var batch := SelectBatch(events, now, limit);
    var r := ApplyBatch(events, batch, now);
    assert forall j :: 0 <= j < |events| ==>
             r[j] == if j in batch then ProcessEvent(events[j], now) else events[j] by {
      forall j | 0 <= j < |events| { ApplyBatchPointwise(events, batch, now, j); }
    }
    r
  }

  /** One event of the batch: run its handler, then mark it delivered or count the
      failed attempt (the `except` branch records the exception text). */
  method ProcessOne(event: EventOutbox, now: Instant) returns (updated: EventOutbox, counted: bool)
    requires event.status == Ready
    ensures updated == ProcessEvent(event, now)
    ensures counted == Counted(event)
  {
    updated := event;
    match ProcessSingleEvent(event)
    case Succeeded =>
      updated := updated.(status := Delivered, deliveredAt := Some(now));
      counted := true;
    case FailedAttempt =>
      updated := updated.(attempts := updated.attempts + 1, lastAttemptAt := Some(now));
      if updated.attempts >= EffectiveMaxAttempts(updated) {
        updated := updated.(status := Failed, failedAt := Some(now));
      } else {
        updated := updated.(readyAt := now + BackoffSeconds);
      }
      counted := true;
    case Raised(message) =>
      updated := updated.(attempts := updated.attempts + 1, lastAttemptAt := Some(now), errorMessage := Some(message));
      if updated.attempts >= EffectiveMaxAttempts(updated) {
        updated := updated.(status := Failed, failedAt := Some(now));
      } else {
        updated := updated.(readyAt := now + BackoffSeconds);
      }
      counted := false;
  }

  /** One loop step: the next row of the batch is still as it was, and processing it
      extends the applied prefix by one. */
  lemma ApplyBatchStep(events: seq<EventOutbox>, batch: seq<nat>, i: nat, now: Instant)
    requires ReadyRows(events, batch) && Distinct(batch) && i < |batch|
    ensures ReadyRows(events, batch[..i]) && ReadyRows(events, batch[..i + 1])
    ensures ApplyBatch(events, batch[..i], now)[batch[i]] == events[batch[i]]
    ensures ApplyBatch(events, batch[..i + 1], now)
            == ApplyBatch(events, batch[..i], now)[batch[i] := ProcessEvent(events[batch[i]], now)]
    ensures CountCounted(events, batch[..i + 1])
            == CountCounted(events, batch[..i]) + (if Counted(events[batch[i]]) then 1 else 0)
  {
    var done := batch[..i];
    assert batch[..i + 1] == done + [batch[i]];
    assert batch[..i + 1][..i] == done;
    assert batch[i] !in done;
    ApplyBatchPointwise(events, done, now, batch[i]);
  }

  /** The `for event in events` loop of `process_ready_outbox_events`: each row of the
      batch processed in turn and updated in place, counting the rows whose handler did
      not raise. */
  method ProcessBatch(events: array<EventOutbox>, batch: seq<nat>, now: Instant) returns (processed: nat)
    requires ReadyRows(events[..], batch) && Distinct(batch)
    modifies events
    ensures events[..] == ApplyBatch(old(events[..]), batch, now)
    ensures processed == CountCounted(old(events[..]), batch)
  {
    ghost var before := events[..];
    processed := 0;
    for i := 0 to |batch|
      invariant events[..] == ApplyBatch(before, batch[..i], now)
      invariant processed == CountCounted(before, batch[..i])
    {
      var k := batch[i];
      ApplyBatchStep(before, batch, i, now);
      var updated, counted := ProcessOne(events[k], now);
      events[k] := updated;
      if counted {
        processed := processed + 1;
      }
    }
    assert batch[..|batch|] == batch;
  }

  /** `process_ready_outbox_events(batch_limit)` run at `now` over the table `events`.
      Every event is committed on its own; the model applies each update in place. */
  method ProcessReadyOutboxEvents(events: array<EventOutbox>, now: Instant, batchLimit: nat := 100)
    returns (processed: nat)
    modifies events
    ensures events[..] == AfterRun(old(events[..]), now, batchLimit)
    ensures processed == CountCounted(old(events[..]), SelectBatch(old(events[..]), now, batchLimit))
  {
    var batch := SelectBatch(events[..], now, batchLimit);
    processed := ProcessBatch(events, batch, now);
  }

  /** The return value never exceeds `batch_limit`. */
  lemma ProcessedAtMostLimit(events: seq<EventOutbox>, now: Instant, limit: nat)
    ensures CountCounted(events, SelectBatch(events, now, limit)) <= limit
  {
  }

  /** A row outside the batch is untouched; in particular a delivered or failed row,
      or a row not yet due, never changes. */
  lemma UnselectedRowsUntouched(events: seq<EventOutbox>, now: Instant, limit: nat, j: nat)
    requires j < |events| && !Eligible(events[j], now)
    ensures AfterRun(events, now, limit)[j] == events[j]
  {
  }

  predicate AttemptsBounded(events: seq<EventOutbox>) {
    forall j :: 0 <= j < |events| ==> events[j].attempts <= events[j].maxAttempts
  }

  predicate StatusesAllowed(events: seq<EventOutbox>) {
    forall j :: 0 <= j < |events| ==> StatusAllowed(events[j].status)
  }

  /** A run keeps `attempts <= max_attempts` on every row and keeps the status check
      constraint: only rows with `attempts < max_attempts` are selected and each is
      incremented at most once. */
  lemma RunKeepsInvariants(events: seq<EventOutbox>, now: Instant, limit: nat)
    ensures AttemptsBounded(events) ==> AttemptsBounded(AfterRun(events, now, limit))
    ensures StatusesAllowed(events) ==> StatusesAllowed(AfterRun(events, now, limit))
  {
  }

  /** Progress: a selected event leaves `ready`, or stays `ready` with strictly fewer
      attempts left, so no event stays ready forever under a live dispatcher. */
  lemma SelectedEventProgresses(e: EventOutbox, now: Instant)
    requires Eligible(e, now) && e.attempts >= 0
    ensures var r := ProcessEvent(e, now);
            r.status != Ready || (0 < r.maxAttempts - r.attempts < e.maxAttempts - e.attempts)
  {
  }

  /** The event after a dispatcher run at each of the instants `times`, in order (it is
      processed whenever it is eligible then). */
  function Replay(e: EventOutbox, times: seq<Instant>): EventOutbox
    decreases |times|
  {
    if times == [] then e
    else
      var e' := if Eligible(e, times[0]) then ProcessEvent(e, times[0]) else e;
      Replay(e', times[1..])
  }

  predicate AlwaysFails(e: EventOutbox) {
    RouteOf(e.eventCode) != Unrouted && e.payload.Obj? &&
    Truthy(Get(e.payload.fields, "force_fail", Bool(false)))
  }

  /** An event whose handler always fails ends `failed` with `attempts == max_attempts`
      once the dispatcher has run, a backoff apart, once per remaining attempt. */
  lemma {:induction false} FailingEventEndsFailed(e: EventOutbox, times: seq<Instant>)
    requires AlwaysFails(e) && e.status == Ready && 0 <= e.attempts < e.maxAttempts
    requires |times| == e.maxAttempts - e.attempts
    requires times[0] >= e.readyAt
    requires forall k :: 0 <= k < |times| - 1 ==> times[k + 1] >= times[k] + BackoffSeconds
    ensures Replay(e, times).status == Failed && Replay(e, times).attempts == e.maxAttempts
    decreases |times|
  {
    var e' := ProcessEvent(e, times[0]);
    assert ProcessSingleEvent(e) == FailedAttempt;
    if |times| > 1 {
      assert e'.status == Ready && e'.readyAt == times[0] + BackoffSeconds;
      FailingEventEndsFailed(e', times[1..]);
    } else {
      assert Replay(e', times[1..]) == e';
    }
  }

  /** The two-attempt scenario: a forced failure with `max_attempts = 2` is retried once
      after 60 seconds and then fails for good. */
  lemma TwoAttemptScenario(e: EventOutbox, t: Instant)
    requires e.status == Ready && e.attempts == 0 && e.maxAttempts == 2 && e.readyAt <= t
    requires e.eventCode == "NOTIFY_BOOKING" && e.payload == Obj(map["force_fail" := Bool(true)])
    ensures ProcessEvent(e, t).attempts == 1 && ProcessEvent(e, t).status == Ready
    ensures ProcessEvent(e, t).readyAt == t + 60
    ensures var second := ProcessEvent(ProcessEvent(e, t), t + 60);
            second.status == Failed && second.attempts == 2
  {
    assert StartsWith(e.eventCode, "NOTIFY_");
    assert AlwaysFails(e);
  }

  // ---------------------------------------------------------------------------
  // Manual retry from the admin dashboard.
  // ---------------------------------------------------------------------------

  /** The retry endpoint as written: status back to `ready`, error cleared, due now;
      `attempts` is left as it was. */
  function RequeueAsWritten(e: EventOutbox, now: Instant): EventOutbox {
    e.(status := Ready, errorMessage := None, readyAt := now)
  }

  /** A row the dispatcher failed has used all its attempts, so the row the retry
      endpoint produces is never selected again, at any time. */
  lemma RequeuedFailedEventNeverSelected(e: EventOutbox, now: Instant, later: Instant)
    requires e.status == Failed && e.attempts >= e.maxAttempts
    ensures RequeueAsWritten(e, now).status == Ready
    ensures !Eligible(RequeueAsWritten(e, now), later)
  {
  }

  /** The retry as evidently intended: the row also gets a fresh attempt budget. */
  function Requeue(e: EventOutbox, now: Instant): EventOutbox {
    e.(status := Ready, errorMessage := None, readyAt := now, attempts := 0)
  }

  /** `retry_outbox_event`: find the tenant's row by id (404 when absent) and requeue it. */
  function RetryOutboxEvent(events: seq<EventOutbox>, tenantId: nat, id: nat, now: Instant)
    : (r: Result<seq<EventOutbox>, ErrorHandler.Error>)
    ensures r.Err? <==> (forall j :: 0 <= j < |events| ==> !(events[j].tenantId == tenantId && events[j].id == id))
    ensures r.Err? ==> r.error.statusCode == 404 && r.error.code == "TITHI_OUTBOX_EVENT_NOT_FOUND"
    ensures r.Ok? ==> (|r.value| == |events| &&
              exists j :: 0 <= j < |events| && events[j].tenantId == tenantId && events[j].id == id &&
                r.value == events[j := Requeue(events[j], now)])
  {
    FindEvent(events, tenantId, id, 0, now)
  }

  function FindEvent(events: seq<EventOutbox>, tenantId: nat, id: nat, from: nat, now: Instant)
    : (r: Result<seq<EventOutbox>, ErrorHandler.Error>)
    requires from <= |events|
    requires forall j :: 0 <= j < from ==> !(events[j].tenantId == tenantId && events[j].id == id)
    ensures r.Err? <==> (forall j :: 0 <= j < |events| ==> !(events[j].tenantId == tenantId && events[j].id == id))
    ensures r.Err? ==> r.error.statusCode == 404 && r.error.code == "TITHI_OUTBOX_EVENT_NOT_FOUND"
    ensures r.Ok? ==> (|r.value| == |events| &&
              exists j :: 0 <= j < |events| && events[j].tenantId == tenantId && events[j].id == id &&
                r.value == events[j := Requeue(events[j], now)])
    decreases |events| - from
  {
    if from == |events| then
      Err(ErrorHandler.NewTithiError("Event not found", "TITHI_OUTBOX_EVENT_NOT_FOUND", 404))
    else if events[from].tenantId == tenantId && events[from].id == id then
      Ok(events[from := Requeue(events[from], now)])
    else FindEvent(events, tenantId, id, from + 1, now)
  }

  /** After the corrected retry, a failed row is due again at once. */
  lemma RequeuedEventIsSelectable(e: EventOutbox, now: Instant)
    requires e.status == Failed && e.maxAttempts > 0
    ensures Eligible(Requeue(e, now), now)
  {
  }

  /** A new row with the column defaults is due for the very next run. */
  lemma NewEventIsDue(id: nat, tenantId: nat, code: string, now: Instant, later: Instant)
    requires now <= later
    ensures Eligible(NewEventOutbox(id, tenantId, code, now), later)
  {
  }

  /** The read-only aliases follow the fields they view: a failed attempt moves
      `retry_count` up by one and `next_retry_at` to the backoff instant. */
  lemma AliasesFollowFields(e: EventOutbox, now: Instant)
    requires Eligible(e, now) && ProcessSingleEvent(e) == FailedAttempt
    requires e.attempts + 1 < e.maxAttempts
    ensures RetryCount(ProcessEvent(e, now)) == RetryCount(e) + 1
    ensures NextRetryAt(ProcessEvent(e, now)) == now + 60
    ensures MaxRetries(ProcessEvent(e, now)) == MaxRetries(e) && EventType(ProcessEvent(e, now)) == EventType(e)
  {
  }
}
