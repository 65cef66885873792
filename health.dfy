/**
 * The provider health tracker: error rate, nearest-rank p95 latency and
 * payment success rate over time windows of the event log, and a
 * CLOSED / OPEN / HALF_OPEN circuit breaker whose OPEN state expires into
 * HALF_OPEN after two minutes.
 *
 * Time is epoch milliseconds passed in as `now`; one `now` serves a whole
 * call, where the code reads the clock more than once.
 */
module Health {
  import opened Wrappers
  import opened Domain
  import opened EventRepository
  import opened Queries

  const ERROR_WINDOW: int := 5 * MINUTE
  const SUCCESS_WINDOW: int := 15 * MINUTE
  const SUCCESS_FALLBACK_WINDOW: int := 24 * 60 * MINUTE
  const OPEN_TTL: int := 2 * MINUTE
  const STREAK_LOOKBACK: int := 6 * 60 * MINUTE
  const STREAK_LENGTH: nat := 5
  const ERROR_RATE_THRESHOLD: real := 0.20

  const SessionTypes: seq<EventType> := [PROVIDER_CREATE_SESSION_SUCCEEDED, PROVIDER_CREATE_SESSION_FAILED]

  /** `effectiveCircuitState`: an OPEN circuit reads as HALF_OPEN once
      strictly more than the TTL has passed since the last failure. */
  function EffectiveCircuitState(state: CircuitState, lastFailureAt: Option<Millis>, now: Millis): (r: CircuitState)
    ensures state != OPEN ==> r == state
    ensures state == OPEN ==> r != CLOSED
    ensures state == OPEN ==> (r == HALF_OPEN <==> lastFailureAt.Some? && now - lastFailureAt.value > OPEN_TTL)
  {
    if state != OPEN then state
    else if lastFailureAt.None? then OPEN
    else if now - lastFailureAt.value > OPEN_TTL then HALF_OPEN
    else OPEN
  }

  /** The session events of the last five minutes, newest first. */
  function RecentSessions(log: seq<PaymentEvent>, p: Provider, now: Millis): seq<PaymentEvent> {
    FindRecentByProviderAndTypes(log, p, SessionTypes, now - ERROR_WINDOW)
  }

  /** failures / total over the recent session events, 0 when there are none. */
  function ErrorRate(log: seq<PaymentEvent>, p: Provider, now: Millis): (r: real)
    ensures 0.0 <= r <= 1.0
    ensures RecentSessions(log, p, now) == [] ==> r == 0.0
  {
    var es := RecentSessions(log, p, now);
    if |es| == 0 then 0.0
    else
      ShareBounds(CountOfType(es, PROVIDER_CREATE_SESSION_FAILED), |es|);
      CountOfType(es, PROVIDER_CREATE_SESSION_FAILED) as real / |es| as real
  }

  lemma ShareBounds(part: nat, whole: nat)
    requires 0 < whole && part <= whole
    ensures 0.0 <= part as real / whole as real <= 1.0
  {
  }

  /** The error rate is the share of failed sessions among the recent ones. */
  lemma ErrorRateIsShare(log: seq<PaymentEvent>, p: Provider, now: Millis)
    requires RecentSessions(log, p, now) != []
    ensures ErrorRate(log, p, now) * |RecentSessions(log, p, now)| as real
      == CountOfType(RecentSessions(log, p, now), PROVIDER_CREATE_SESSION_FAILED) as real
  {
  }

  /** `lastNCreateSessionAreFailures`: at least `n` session events in the
      last six hours, and the newest `n` of them all failed. */
  predicate LastNSessionsFailed(log: seq<PaymentEvent>, p: Provider, n: nat, now: Millis) {
    var es := FindRecentByProviderAndTypes(log, p, SessionTypes, now - STREAK_LOOKBACK);
    |es| >= n && forall k :: 0 <= k < n ==> es[k].eventType == PROVIDER_CREATE_SESSION_FAILED
  }

  /** A streak of `n` is `n` failed sessions in the six-hour window, and it
      still holds for any shorter streak. */
  lemma StreakCountsFailures(log: seq<PaymentEvent>, p: Provider, n: nat, now: Millis)
    requires LastNSessionsFailed(log, p, n, now)
    ensures n <= CountOfType(FindRecentByProviderAndTypes(log, p, SessionTypes, now - STREAK_LOOKBACK),
                             PROVIDER_CREATE_SESSION_FAILED)
    ensures forall m: nat :: m <= n ==> LastNSessionsFailed(log, p, m, now)
  {
    var es := FindRecentByProviderAndTypes(log, p, SessionTypes, now - STREAK_LOOKBACK);
    TypedPrefixCounted(es, PROVIDER_CREATE_SESSION_FAILED, n);
  }

  /** `shouldOpen`: an error rate above 20%, which is more than one failure
      in five recent sessions, or a streak of five failures. */
  predicate ShouldOpen(log: seq<PaymentEvent>, p: Provider, now: Millis)
    ensures ShouldOpen(log, p, now) <==>
      (var es := RecentSessions(log, p, now); 5 * CountOfType(es, PROVIDER_CREATE_SESSION_FAILED) > |es|)
      || LastNSessionsFailed(log, p, STREAK_LENGTH, now)
  {
    var es := RecentSessions(log, p, now);
    assert es != [] ==> (ErrorRate(log, p, now) > ERROR_RATE_THRESHOLD <==> 5 * CountOfType(es, PROVIDER_CREATE_SESSION_FAILED) > |es|) by {
      if es != [] {
        ErrorRateIsShare(log, p, now);
        ErrorRateAboveThreshold(ErrorRate(log, p, now), CountOfType(es, PROVIDER_CREATE_SESSION_FAILED), |es|);
      }
    }
    ErrorRate(log, p, now) > ERROR_RATE_THRESHOLD || LastNSessionsFailed(log, p, STREAK_LENGTH, now)
  }

  lemma ErrorRateAboveThreshold(rate: real, failed: nat, total: nat)
    requires total > 0 && rate * total as real == failed as real
    ensures rate > ERROR_RATE_THRESHOLD <==> 5 * failed > total
  {
  }

  /** `extractLatency`: the latency of a session payload; nothing for a
      null or any other payload. */
  function ExtractLatency(payload: Option<Payload>): (r: Option<int>)
    ensures r.Some? <==> payload.Some? && payload.value.SessionPayload?
    ensures r.Some? ==> r.value == payload.value.latencyMs
  {
    match payload
    case Some(SessionPayload(l, _, _)) => Some(l)
    case _ => None
  }

  /** The latency an event contributes to p95, if any. */
  function Sample(e: PaymentEvent): Option<int> {
    var l := ExtractLatency(e.sanitized);
    if l.Some? && l.value >= 0 then l else None
  }

  /** The non-negative latencies the events carry, in event order. */
  function SampleLatencies(es: seq<PaymentEvent>): (r: seq<int>)
    ensures forall i :: 0 <= i < |r| ==> r[i] >= 0
    ensures forall i :: 0 <= i < |es| && Sample(es[i]).Some? ==> Sample(es[i]).value in r
    ensures (forall i :: 0 <= i < |es| ==> Sample(es[i]).None?) ==> r == []
  {
    if es == [] then []
    else
      var l := Sample(es[0]);
      var rest := SampleLatencies(es[1..]);
      assert forall i :: 1 <= i < |es| ==> es[i] == es[1..][i - 1];
      (if l.Some? then [l.value] else []) + rest
  }

  predicate SortedAsc(s: seq<int>) {
    forall i, j :: 0 <= i < j < |s| ==> s[i] <= s[j]
  }

  /** Insertion of `x` before the first larger-or-equal element. */
  function Insert(x: int, s: seq<int>): (r: seq<int>)
    ensures |r| == |s| + 1
    ensures multiset(r) == multiset(s) + multiset{x}
  {
    if s == [] then [x]
    else if x <= s[0] then [x] + s
    else
      assert s == [s[0]] + s[1..];
      [s[0]] + Insert(x, s[1..])
  }

  /** Inserting into a sorted sequence keeps it sorted. */
  lemma {:induction false} InsertSorted(x: int, s: seq<int>)
    requires SortedAsc(s)
    ensures SortedAsc(Insert(x, s))
  {
    if s != [] && x > s[0] {
      InsertSorted(x, s[1..]);
      var t := Insert(x, s[1..]);
      forall i | 0 <= i < |t| ensures s[0] <= t[i] {
        assert t[i] in multiset(t);
        if t[i] != x {
          assert t[i] in multiset(s[1..]);
          var j :| 0 <= j < |s[1..]| && s[1..][j] == t[i];
          assert s[j + 1] == t[i];
        }
      }
      assert Insert(x, s) == [s[0]] + t;
    }
  }

  /** The ascending sort of the samples (`Collections.sort`). */
  function SortAsc(s: seq<int>): (r: seq<int>)
    ensures |r| == |s|
    ensures multiset(r) == multiset(s)
  {
    if s == [] then []
    else
      assert s == [s[0]] + s[1..];
      Insert(s[0], SortAsc(s[1..]))
  }

  lemma {:induction false} SortAscSorted(s: seq<int>)
    ensures SortedAsc(SortAsc(s))
  {
    if s != [] {
      SortAscSorted(s[1..]);
      InsertSorted(s[0], SortAsc(s[1..]));
    }
  }

  /** ceil(0.95 n) - 1, clamped to [0, n - 1]. */
  function NearestRankIndex(n: nat): (k: int)
    requires n >= 1
    ensures 0 <= k < n
  {
    var raw := (95 * n + 99) / 100 - 1;
    if raw < 0 then 0 else if raw >= n then n - 1 else raw
  }

  /** The clamps never apply: the index is the nearest rank ceil(0.95 n)
      less one, i.e. the smallest k with k + 1 >= 0.95 n. */
  lemma NearestRankIndexIsCeiling(n: nat)
    requires n >= 1
    ensures NearestRankIndex(n) == (95 * n + 99) / 100 - 1
    ensures 100 * (NearestRankIndex(n) + 1) >= 95 * n
    ensures 100 * NearestRankIndex(n) < 95 * n
  {
    var q := (95 * n + 99) / 100;
    assert 100 * q <= 95 * n + 99 < 100 * q + 100;
    assert q >= 1;
    assert q <= n;
  }

  /** The nearest-rank 95th percentile of the samples, 0 when there are
      none: one of the samples, with ceil(0.95 n) of the sorted samples at
      or below it and the rest at or above it. */
  function NearestRank(s: seq<int>): (r: int)
    ensures s == [] ==> r == 0
    ensures s != [] ==> r in s && r == SortAsc(s)[NearestRankIndex(|s|)]
  {
    if s == [] then 0
    else
      var sorted := SortAsc(s);
      assert sorted[NearestRankIndex(|s|)] in multiset(sorted);
      sorted[NearestRankIndex(|s|)]
  }

  /** The nearest-rank value splits the sorted samples: at least 95% of
      them are at or below it, the rest at or above it. */
  lemma NearestRankSplits(s: seq<int>)
    requires s != []
    ensures var sorted := SortAsc(s); var k := NearestRankIndex(|s|);
      (forall j :: 0 <= j <= k ==> sorted[j] <= NearestRank(s))
      && (forall j :: k <= j < |s| ==> sorted[j] >= NearestRank(s))
      && 100 * (k + 1) >= 95 * |s|
  {
    SortAscSorted(s);
    SortedSplits(SortAsc(s), NearestRankIndex(|s|));
    NearestRankIndexIsCeiling(|s|);
  }

  /** In ascending order, everything before position k is at most its
      element and everything after at least. */
  lemma SortedSplits(sorted: seq<int>, k: int)
    requires SortedAsc(sorted) && 0 <= k < |sorted|
    ensures forall j :: 0 <= j <= k ==> sorted[j] <= sorted[k]
    ensures forall j :: k <= j < |sorted| ==> sorted[j] >= sorted[k]
  {
  }

  /** The latencies p95 is taken from. */
  function Samples(log: seq<PaymentEvent>, p: Provider, from: Millis): seq<int> {
    SampleLatencies(FindRecentByProviderAndType(log, p, PROVIDER_CREATE_SESSION_SUCCEEDED, from))
  }

  /** `computeP95LatencyMs` over the successful sessions since `from`. */
  function ComputeP95(log: seq<PaymentEvent>, p: Provider, from: Millis): (r: int)
    ensures r >= 0
  {
    var successes := FindRecentByProviderAndType(log, p, PROVIDER_CREATE_SESSION_SUCCEEDED, from);
    if successes == [] then 0 else NearestRank(SampleLatencies(successes))
  }

  /** p95 is the nearest-rank value of the sampled latencies (0 when the
      window holds no success at all). */
  lemma ComputeP95IsNearestRank(log: seq<PaymentEvent>, p: Provider, from: Millis)
    ensures ComputeP95(log, p, from) == NearestRank(Samples(log, p, from))
  {
  }

  /** `computePaymentSuccessRate`: succeeded / (succeeded + failed) payment
      outcomes since `from`; nothing (NaN) when there are none. */
  function PaymentSuccessRate(log: seq<PaymentEvent>, p: Provider, from: Millis): (r: Option<real>)
    ensures var succ := CountByProviderAndTypeSince(log, p, PAYMENT_SUCCEEDED, from);
      var fail := CountByProviderAndTypeSince(log, p, PAYMENT_FAILED, from);
      (r.None? <==> succ + fail == 0) && (r.Some? ==> 0.0 <= r.value <= 1.0)
  {
    var succ := CountByProviderAndTypeSince(log, p, PAYMENT_SUCCEEDED, from);
    var fail := CountByProviderAndTypeSince(log, p, PAYMENT_FAILED, from);
    if succ + fail == 0 then None
    else
      ShareBounds(succ, succ + fail);
      Some(succ as real / (succ + fail) as real)
  }

  /** The payment success rate is the share of successes among the
      payment outcomes of the window. */
  lemma PaymentSuccessRateIsShare(log: seq<PaymentEvent>, p: Provider, from: Millis)
    requires PaymentSuccessRate(log, p, from).Some?
    ensures var succ := CountByProviderAndTypeSince(log, p, PAYMENT_SUCCEEDED, from);
      var fail := CountByProviderAndTypeSince(log, p, PAYMENT_FAILED, from);
      PaymentSuccessRate(log, p, from).value * (succ + fail) as real == succ as real
  {
  }

  /** The success rate stored by a recomputation: the 15-minute window,
      else the 24-hour window, else the previously stored value. */
  function SuccessRate(log: seq<PaymentEvent>, p: Provider, now: Millis, previous: real): (r: real)
    ensures PaymentSuccessRate(log, p, now - SUCCESS_WINDOW).Some? ==> r == PaymentSuccessRate(log, p, now - SUCCESS_WINDOW).value
    ensures PaymentSuccessRate(log, p, now - SUCCESS_WINDOW).None? && PaymentSuccessRate(log, p, now - SUCCESS_FALLBACK_WINDOW).Some?
      ==> r == PaymentSuccessRate(log, p, now - SUCCESS_FALLBACK_WINDOW).value
    ensures PaymentSuccessRate(log, p, now - SUCCESS_WINDOW).None? && PaymentSuccessRate(log, p, now - SUCCESS_FALLBACK_WINDOW).None?
      ==> r == previous
    ensures 0.0 <= previous <= 1.0 ==> 0.0 <= r <= 1.0
  {
    match PaymentSuccessRate(log, p, now - SUCCESS_WINDOW)
    case Some(v) => v
    case None =>
      match PaymentSuccessRate(log, p, now - SUCCESS_FALLBACK_WINDOW)
      case Some(v) => v
      case None => previous
  }

  /** The persisted health row of one provider. */
  datatype HealthRow = HealthRow(
    circuitState: CircuitState,
    successRate: real,
    errorRate: real,
    p95LatencyMs: int,
    lastFailureAt: Option<Millis>,
    windowStart: Option<Millis>,
    windowEnd: Option<Millis>,
    updatedAt: Millis)

  /** The row created for a provider that has none: CLOSED and all zero. */
  function FreshRow(now: Millis): HealthRow {
    HealthRow(CLOSED, 0.0, 0.0, 0, None, None, None, now)
  }

  /** What every stored row satisfies. */
  predicate RowInvariant(r: HealthRow) {
    0.0 <= r.successRate <= 1.0 && 0.0 <= r.errorRate <= 1.0 && r.p95LatencyMs >= 0
    && (r.circuitState == OPEN ==> r.lastFailureAt.Some?)
  }

  /** The circuit branch of `recomputeAndPersist`: the next state and the
      new lastFailureAt, given the outcome of the last session call
      (nothing for a webhook-driven recomputation). */
  function Transition(state: CircuitState, lastFailureAt: Option<Millis>, lastSession: Option<bool>,
                      shouldOpen: bool, now: Millis): (r: (CircuitState, Option<Millis>))
  {
    var next := EffectiveCircuitState(state, lastFailureAt, now);
    match lastSession
    case Some(true) =>
      if next == HALF_OPEN || next == OPEN then (CLOSED, None) else (next, lastFailureAt)
    case Some(false) =>
      if next == HALF_OPEN || shouldOpen then (OPEN, Some(now)) else (next, lastFailureAt)
    case None =>
      if shouldOpen then (OPEN, Some(now)) else (next, lastFailureAt)
  }

  /** A successful session closes a HALF_OPEN or OPEN circuit (effective
      state) and clears the failure time; a CLOSED one stays CLOSED. */
  lemma SessionSuccessCloses(state: CircuitState, lastFailureAt: Option<Millis>, shouldOpen: bool, now: Millis)
    ensures var (s, lf) := Transition(state, lastFailureAt, Some(true), shouldOpen, now);
      s == CLOSED && (state != CLOSED ==> lf.None?) && (state == CLOSED ==> lf == lastFailureAt)
  {
  }

  /** A failed session opens a HALF_OPEN circuit, or any circuit when the
      opening condition holds, stamping the failure time; otherwise the
      effective state is kept. */
  lemma SessionFailureOpens(state: CircuitState, lastFailureAt: Option<Millis>, shouldOpen: bool, now: Millis)
    ensures var eff := EffectiveCircuitState(state, lastFailureAt, now);
      var (s, lf) := Transition(state, lastFailureAt, Some(false), shouldOpen, now);
      ((eff == HALF_OPEN || shouldOpen) ==> s == OPEN && lf == Some(now))
      && (!(eff == HALF_OPEN || shouldOpen) ==> s == eff && lf == lastFailureAt)
  {
  }

  /** A webhook-driven recomputation opens (and re-stamps) on the opening
      condition and otherwise keeps the effective state: OPEN and HALF_OPEN
      stay, anything else is CLOSED. */
  lemma WebhookKeepsOrOpens(state: CircuitState, lastFailureAt: Option<Millis>, shouldOpen: bool, now: Millis)
    ensures var eff := EffectiveCircuitState(state, lastFailureAt, now);
      var (s, lf) := Transition(state, lastFailureAt, None, shouldOpen, now);
      (shouldOpen ==> s == OPEN && lf == Some(now))
      && (!shouldOpen ==> s == eff && lf == lastFailureAt && (eff != OPEN && eff != HALF_OPEN ==> s == CLOSED))
  {
  }

  /** Every transition keeps "an OPEN circuit has a failure time". */
  lemma TransitionKeepsFailureTime(state: CircuitState, lastFailureAt: Option<Millis>, lastSession: Option<bool>,
                                   shouldOpen: bool, now: Millis)
    requires state == OPEN ==> lastFailureAt.Some?
    ensures var (s, lf) := Transition(state, lastFailureAt, lastSession, shouldOpen, now);
      s == OPEN ==> lf.Some?
  {
  }

  /** The row `recomputeAndPersist` saves. */
  function Recomputed(row: HealthRow, log: seq<PaymentEvent>, p: Provider, lastSession: Option<bool>, now: Millis): (r: HealthRow)
    requires RowInvariant(row)
    ensures RowInvariant(r)
  {
    var t := Transition(row.circuitState, row.lastFailureAt, lastSession, ShouldOpen(log, p, now), now);
    TransitionKeepsFailureTime(row.circuitState, row.lastFailureAt, lastSession, ShouldOpen(log, p, now), now);
    HealthRow(t.0, SuccessRate(log, p, now, row.successRate), ErrorRate(log, p, now),
      ComputeP95(log, p, now - SUCCESS_WINDOW), t.1, Some(now - SUCCESS_WINDOW), Some(now), now)
  }

  /** A row built from the recomputed fields is the recomputed row. */
  lemma RecomputedFields(row: HealthRow, log: seq<PaymentEvent>, p: Provider, lastSession: Option<bool>, now: Millis,
                         state: CircuitState, lastFailureAt: Option<Millis>, successRate: real, errorRate: real, p95: int)
    requires RowInvariant(row)
    requires state == Transition(row.circuitState, row.lastFailureAt, lastSession, ShouldOpen(log, p, now), now).0
    requires lastFailureAt == Transition(row.circuitState, row.lastFailureAt, lastSession, ShouldOpen(log, p, now), now).1
    requires successRate == SuccessRate(log, p, now, row.successRate) && errorRate == ErrorRate(log, p, now)
    requires p95 == ComputeP95(log, p, now - SUCCESS_WINDOW)
    ensures HealthRow(state, successRate, errorRate, p95, lastFailureAt, Some(now - SUCCESS_WINDOW), Some(now), now)
      == Recomputed(row, log, p, lastSession, now)
  {
  }

  /** The sanitized payload of a session outcome AS WRITTEN: `Map.of`
      refuses a null value, the exception is swallowed, and the event is
      saved with a null payload whenever errorType is null, which is every
      successful session. */
  function SessionPayloadAsWritten(latencyMs: int, success: bool, errorType: Option<string>): (r: Option<Payload>)
    ensures r.None? <==> errorType.None?
  {
    if errorType.None? then None else Some(SessionPayload(latencyMs, success, errorType))
  }

  /** The sanitized payload of a session outcome as intended: the latency
      is always recorded. */
  function IntendedSessionPayload(latencyMs: int, success: bool, errorType: Option<string>): (r: Option<Payload>)
    ensures ExtractLatency(r) == Some(latencyMs)
  {
    Some(SessionPayload(latencyMs, success, errorType))
  }

  /** The event a session outcome appends. */
  function SessionEvent(p: Provider, intentId: string, success: bool, payload: Option<Payload>, now: Millis): PaymentEvent {
    PaymentEvent(p, Some(intentId),
      if success then PROVIDER_CREATE_SESSION_SUCCEEDED else PROVIDER_CREATE_SESSION_FAILED, payload, now)
  }

  /** As written, successful sessions never contribute a latency, so p95
      is 0 whatever the latencies were. */
  lemma AsWrittenP95AlwaysZero(log: seq<PaymentEvent>, latencies: seq<int>, p: Provider, from: Millis)
    requires |latencies| == |log|
    requires forall i :: 0 <= i < |log| && log[i].eventType == PROVIDER_CREATE_SESSION_SUCCEEDED ==>
      log[i].sanitized == SessionPayloadAsWritten(latencies[i], true, None)
    ensures ComputeP95(log, p, from) == 0
  {
    var successes := FindRecentByProviderAndType(log, p, PROVIDER_CREATE_SESSION_SUCCEEDED, from);
    forall i | 0 <= i < |successes| ensures Sample(successes[i]).None? {
      assert successes[i] in log;
      var j :| 0 <= j < |log| && log[j] == successes[i];
    }
    assert SampleLatencies(successes) == [];
    ComputeP95IsNearestRank(log, p, from);
  }

  /** A single successful session event is the whole result of the
      success query over a one-event log. */
  lemma SingleSuccessQuery(e: PaymentEvent, from: Millis)
    requires e.eventType == PROVIDER_CREATE_SESSION_SUCCEEDED && e.createdAt >= from
    ensures FindRecentByProviderAndType([e], e.provider, PROVIDER_CREATE_SESSION_SUCCEEDED, from) == [e]
  {
    assert [e][..0] == [];
    assert Matching([e], e.provider, [PROVIDER_CREATE_SESSION_SUCCEEDED], from) == [e];
    assert Reverse([e]) == [e];
  }

  /** A concrete witness: one successful 120 ms session, recorded as
      written, gives p95 = 0. */
  lemma AsWrittenLosesLatency()
    ensures var e := SessionEvent(STRIPE, "pi-1", true, SessionPayloadAsWritten(120, true, None), 1000);
      ComputeP95([e], STRIPE, 0) == 0
  {
    var e := SessionEvent(STRIPE, "pi-1", true, SessionPayloadAsWritten(120, true, None), 1000);
    SingleSuccessQuery(e, 0);
    assert Sample(e) == None;
    assert SampleLatencies([e]) == [];
    ComputeP95IsNearestRank([e], STRIPE, 0);
  }

  /** The same session recorded with the intended payload gives p95 = 120. */
  lemma IntendedKeepsLatency()
    ensures var e := SessionEvent(STRIPE, "pi-1", true, IntendedSessionPayload(120, true, None), 1000);
      ComputeP95([e], STRIPE, 0) == 120
  {
    var e := SessionEvent(STRIPE, "pi-1", true, IntendedSessionPayload(120, true, None), 1000);
    SingleSuccessQuery(e, 0);
    assert Sample(e) == Some(120);
    assert SampleLatencies([e]) == [120];
    ComputeP95IsNearestRank([e], STRIPE, 0);
  }

  /** With the intended payload, the latency of a session just recorded is
      among the p95 samples, so p95 is drawn from real latencies. */
  lemma RecordedLatencyIsSampled(log: seq<PaymentEvent>, p: Provider, intentId: string, latencyMs: int, now: Millis)
    requires latencyMs >= 0
    ensures var log' := log + [SessionEvent(p, intentId, true, IntendedSessionPayload(latencyMs, true, None), now)];
      latencyMs in Samples(log', p, now - SUCCESS_WINDOW)
      && ComputeP95(log', p, now - SUCCESS_WINDOW) in Samples(log', p, now - SUCCESS_WINDOW)
  {
    var e := SessionEvent(p, intentId, true, IntendedSessionPayload(latencyMs, true, None), now);
    var log' := log + [e];
    var successes := FindRecentByProviderAndType(log', p, PROVIDER_CREATE_SESSION_SUCCEEDED, now - SUCCESS_WINDOW);
    assert e in successes;
    var i :| 0 <= i < |successes| && successes[i] == e;
    assert Sample(successes[i]) == Some(latencyMs);
    ComputeP95IsNearestRank(log', p, now - SUCCESS_WINDOW);
  }

  /** Every stored row keeps the row invariant. */
  predicate RowsOk(rows: map<Provider, HealthRow>) {
    forall p :: p in rows ==> RowInvariant(rows[p])
  }

  /** A provider's snapshot of its stored row. */
  function RowSnapshot(p: Provider, r: HealthRow, now: Millis): ProviderSnapshot {
    ProviderSnapshot(p, EffectiveCircuitState(r.circuitState, r.lastFailureAt, now),
      r.successRate, r.errorRate, r.p95LatencyMs, r.lastFailureAt, r.updatedAt)
  }

  /** The health tracker's persistent state: the event log and one row per
      provider. */
  class HealthTracker {
    var events: seq<PaymentEvent>
    var rows: map<Provider, HealthRow>

    ghost predicate Valid()
      reads this
    {
      RowsOk(rows)
    }

    constructor ()
      ensures Valid() && events == [] && rows == map[]
    {
      events := [];
      rows := map[];
    }

    /** The snapshot the routing engine reads: the stored figures with the
        TTL-adjusted circuit state, which is not written back. */
    function SnapshotOf(p: Provider, now: Millis): (s: ProviderSnapshot)
      reads this
      requires p in rows
      ensures s.provider == p
      ensures s.circuitState == EffectiveCircuitState(rows[p].circuitState, rows[p].lastFailureAt, now)
      ensures s.successRate == rows[p].successRate && s.errorRate == rows[p].errorRate
      ensures s.p95LatencyMs == rows[p].p95LatencyMs && s.lastFailureAt == rows[p].lastFailureAt
    {
      RowSnapshot(p, rows[p], now)
    }

    /** `getSnapshot`: a provider without a row gets a CLOSED, all-zero
        row saved first. */
    method GetSnapshot(p: Provider, now: Millis) returns (s: ProviderSnapshot)
      requires Valid()
      modifies this`rows
      ensures Valid()
      ensures rows == if p in old(rows) then old(rows) else old(rows)[p := FreshRow(now)]
      ensures s == SnapshotOf(p, now)
    {
      if p !in rows {
        rows := rows[p := FreshRow(now)];
      }
      s := SnapshotOf(p, now);
    }

    /** `getAllSnapshots`: one snapshot per provider, in enumeration order. */
    method GetAllSnapshots(now: Millis) returns (ss: seq<ProviderSnapshot>)
      requires Valid()
      modifies this`rows
      ensures Valid()
      ensures forall p :: p in rows <==> p in old(rows) || p in AllProviders
      ensures forall p :: p in old(rows) ==> rows[p] == old(rows)[p]
      ensures |ss| == |AllProviders|
      ensures forall i :: 0 <= i < |ss| ==> ss[i] == SnapshotOf(AllProviders[i], now)
    {
      ss := [];
      var i := 0;
      while i < |AllProviders|
        invariant 0 <= i <= |AllProviders|
        invariant Valid()
        invariant forall p :: p in rows <==> p in old(rows) || p in AllProviders[..i]
        invariant forall p :: p in old(rows) ==> rows[p] == old(rows)[p]
        invariant |ss| == i
        invariant forall k :: 0 <= k < i ==> ss[k] == RowSnapshot(AllProviders[k], rows[AllProviders[k]], now)
      {
        ghost var before, done := rows, ss;
        TakeSnoc(AllProviders, i);
        var s := GetSnapshot(AllProviders[i], now);
        ss := ss + [s];
        forall k | 0 <= k <= i ensures ss[k] == RowSnapshot(AllProviders[k], rows[AllProviders[k]], now) {
          if k < i {
            assert ss[k] == done[k] && AllProviders[k] in before;
          }
        }
        i := i + 1;
      }
    }

    /** `recomputeAndPersist`: recompute the figures from the log and step
        the circuit. */
    method RecomputeAndPersist(p: Provider, lastSession: Option<bool>, now: Millis)
      requires Valid()
      modifies this`rows
      ensures Valid()
      ensures rows == old(rows)[p := Recomputed(if p in old(rows) then old(rows)[p] else FreshRow(now), events, p, lastSession, now)]
    {
      var entity := if p in rows then rows[p] else FreshRow(now);
      var row := RecomputeRow(entity, events, p, lastSession, now);
      rows := rows[p := row];
    }

    /** The fields `recomputeAndPersist` computes for one provider's row. */
    static method RecomputeRow(entity: HealthRow, events: seq<PaymentEvent>, p: Provider, lastSession: Option<bool>,
                               now: Millis)
      returns (row: HealthRow)
      requires RowInvariant(entity)
      ensures row == Recomputed(entity, events, p, lastSession, now)
    {
      var errorRate := ErrorRate(events, p, now);
      var p95 := ComputeP95(events, p, now - SUCCESS_WINDOW);
      var successRate := SuccessRate(events, p, now, entity.successRate);
      var shouldOpen := errorRate > ERROR_RATE_THRESHOLD || LastNSessionsFailed(events, p, STREAK_LENGTH, now);
      assert shouldOpen == ShouldOpen(events, p, now);
      var nextState, lastFailureAt := NextCircuit(entity.circuitState, entity.lastFailureAt, lastSession, shouldOpen, now);
      RecomputedFields(entity, events, p, lastSession, now, nextState, lastFailureAt, successRate, errorRate, p95);
      row := HealthRow(nextState, successRate, errorRate, p95, lastFailureAt, Some(now - SUCCESS_WINDOW), Some(now), now);
    }

    /** The circuit-state branches of `recomputeAndPersist`. */
    static method NextCircuit(state: CircuitState, failedAt: Option<Millis>, lastSession: Option<bool>,
                              shouldOpen: bool, now: Millis)
      returns (nextState: CircuitState, lastFailureAt: Option<Millis>)
      ensures (nextState, lastFailureAt) == Transition(state, failedAt, lastSession, shouldOpen, now)
    {
      nextState := EffectiveCircuitState(state, failedAt, now);
      lastFailureAt := failedAt;
      if lastSession == Some(true) {
        if nextState == HALF_OPEN || nextState == OPEN {
          nextState := CLOSED;
          lastFailureAt := None;
        }
      } else if lastSession == Some(false) {
        if nextState == HALF_OPEN {
          nextState := OPEN;
          lastFailureAt := Some(now);
        } else if shouldOpen {
          nextState := OPEN;
          lastFailureAt := Some(now);
        }
      } else {
        if shouldOpen {
          nextState := OPEN;
          lastFailureAt := Some(now);
        } else if nextState == OPEN {
          // stays OPEN until the TTL passes
        } else if nextState == HALF_OPEN {
          // stays HALF_OPEN until a session probes it
        } else {
          nextState := CLOSED;
        }
      }
    }

    /** `recordCreateSessionOutcome`: append the session event with its
        payload as the code builds it (none for a success, see
        `SessionPayloadAsWritten`), then recompute with the session's
        outcome. */
    method RecordCreateSessionOutcome(p: Provider, intentId: string, success: bool, latencyMs: int,
                                      errorType: Option<string>, now: Millis)
      requires Valid()
      modifies this
      ensures Valid()
      ensures events == old(events) + [SessionEvent(p, intentId, success, SessionPayloadAsWritten(latencyMs, success, errorType), now)]
      ensures rows == old(rows)[p := Recomputed(if p in old(rows) then old(rows)[p] else FreshRow(now), events, p, Some(success), now)]
    {
      events := events + [SessionEvent(p, intentId, success, SessionPayloadAsWritten(latencyMs, success, errorType), now)];
      RecomputeAndPersist(p, Some(success), now);
    }

    /** `recordPaymentOutcomeFromWebhook` */
    method RecordPaymentOutcome(p: Provider, intentId: string, success: bool, sanitized: Option<Payload>, now: Millis)
      requires Valid()
      modifies this
      ensures Valid()
      ensures events == old(events) + [PaymentEvent(p, Some(intentId), if success then PAYMENT_SUCCEEDED else PAYMENT_FAILED, sanitized, now)]
      ensures rows == old(rows)[p := Recomputed(if p in old(rows) then old(rows)[p] else FreshRow(now), events, p, None, now)]
    {
      events := events + [PaymentEvent(p, Some(intentId), if success then PAYMENT_SUCCEEDED else PAYMENT_FAILED, sanitized, now)];
      RecomputeAndPersist(p, None, now);
    }

    /** `recordRefundOutcomeFromWebhook` */
    method RecordRefundOutcome(p: Provider, intentId: string, sanitized: Option<Payload>, now: Millis)
      requires Valid()
      modifies this
      ensures Valid()
      ensures events == old(events) + [PaymentEvent(p, Some(intentId), REFUND_SUCCEEDED, sanitized, now)]
      ensures rows == old(rows)[p := Recomputed(if p in old(rows) then old(rows)[p] else FreshRow(now), events, p, None, now)]
    {
      events := events + [PaymentEvent(p, Some(intentId), REFUND_SUCCEEDED, sanitized, now)];
      RecomputeAndPersist(p, None, now);
    }
  }

  /** The recomputed circuit state is the transition's. */
  lemma RecomputedState(row: HealthRow, log: seq<PaymentEvent>, p: Provider, lastSession: Option<bool>, now: Millis)
    requires RowInvariant(row)
    ensures Recomputed(row, log, p, lastSession, now).circuitState
      == Transition(row.circuitState, row.lastFailureAt, lastSession, ShouldOpen(log, p, now), now).0
  {
  }

  /** An event matching the query and appended last comes first in the
      newest-first result. */
  lemma AppendedComesFirst(log: seq<PaymentEvent>, e: PaymentEvent, provider: Provider, types: seq<EventType>, from: Millis)
    requires Matches(e, provider, types, from)
    ensures FindRecentByProviderAndTypes(log + [e], provider, types, from)
      == [e] + FindRecentByProviderAndTypes(log, provider, types, from)
  {
    assert (log + [e])[..|log + [e]| - 1] == log;
    var m := Matching(log, provider, types, from);
    assert Matching(log + [e], provider, types, from) == m + [e];
    assert Reverse(m + [e]) == [e] + Reverse(m);
  }

  /** Each outcome is appended before the recomputation, so it counts: a
      failed session after four newest session failures in the last six
      hours is the fifth, and it opens the circuit whatever its state. */
  lemma NewFailureCompletesStreak(log: seq<PaymentEvent>, row: HealthRow, p: Provider, intentId: string,
                                  latencyMs: int, errorType: Option<string>, now: Millis)
    requires RowInvariant(row)
    requires var es := FindRecentByProviderAndTypes(log, p, SessionTypes, now - STREAK_LOOKBACK);
      |es| >= STREAK_LENGTH - 1 && forall k :: 0 <= k < STREAK_LENGTH - 1 ==> es[k].eventType == PROVIDER_CREATE_SESSION_FAILED
    ensures var log' := log + [SessionEvent(p, intentId, false, SessionPayloadAsWritten(latencyMs, false, errorType), now)];
      ShouldOpen(log', p, now) && Recomputed(row, log', p, Some(false), now).circuitState == OPEN
  {
    var e := SessionEvent(p, intentId, false, SessionPayloadAsWritten(latencyMs, false, errorType), now);
    var log' := log + [e];
    AppendedComesFirst(log, e, p, SessionTypes, now - STREAK_LOOKBACK);
    var es := FindRecentByProviderAndTypes(log, p, SessionTypes, now - STREAK_LOOKBACK);
    var es' := FindRecentByProviderAndTypes(log', p, SessionTypes, now - STREAK_LOOKBACK);
    assert es' == [e] + es;
    forall k | 0 <= k < STREAK_LENGTH ensures es'[k].eventType == PROVIDER_CREATE_SESSION_FAILED {
      if k > 0 {
        assert es'[k] == es[k - 1];
      }
    }
    assert LastNSessionsFailed(log', p, STREAK_LENGTH, now);
    RecomputedState(row, log', p, Some(false), now);
  }

  /** An error rate above 20% over the last five minutes opens the circuit
      on a failed session or a webhook, but a successful session still
      closes it. */
  lemma HighErrorRateOpens(row: HealthRow, log: seq<PaymentEvent>, p: Provider, now: Millis)
    requires RowInvariant(row)
    requires ErrorRate(log, p, now) > ERROR_RATE_THRESHOLD
    ensures Recomputed(row, log, p, Some(false), now).circuitState == OPEN
    ensures Recomputed(row, log, p, None, now).circuitState == OPEN
    ensures Recomputed(row, log, p, Some(true), now).circuitState == CLOSED
  {
    assert ShouldOpen(log, p, now);
    RecomputedState(row, log, p, Some(false), now);
    RecomputedState(row, log, p, None, now);
    RecomputedState(row, log, p, Some(true), now);
  }
}
