/**
 * The payment event log and the three queries the health tracker runs
 * over it. The log is the append-only sequence of saved events, oldest
 * first; "ordered by createdAt descending" is the matching events taken
 * newest first.
 */
module EventRepository {
  import opened Wrappers
  import opened Domain
  import opened Queries

  /** The sanitized payload of an event, as the JSON mapper would read it
      back: a session outcome (with its latency) or any other payload. */
  datatype Payload =
    | SessionPayload(latencyMs: int, success: bool, errorType: Option<string>)
    | OtherPayload(text: string)

  datatype PaymentEvent = PaymentEvent(
    provider: Provider,
    paymentIntentId: Option<string>,
    eventType: EventType,
    sanitized: Option<Payload>,
    createdAt: Millis)

  /** The `where` clause: provider, type among `types`, createdAt >= from. */
  predicate Matches(e: PaymentEvent, provider: Provider, types: seq<EventType>, from: Millis) {
    e.provider == provider && e.eventType in types && e.createdAt >= from
  }

  /** The matching events in log order (oldest first). */
  function Matching(log: seq<PaymentEvent>, provider: Provider, types: seq<EventType>, from: Millis): (r: seq<PaymentEvent>)
    ensures |r| <= |log|
    ensures forall e :: e in r <==> e in log && Matches(e, provider, types, from)
  {
    if log == [] then []
    else
      var last := log[|log| - 1];
      Matching(log[..|log| - 1], provider, types, from) + (if Matches(last, provider, types, from) then [last] else [])
  }

  /** `findRecentByProviderAndTypes` */
  function FindRecentByProviderAndTypes(log: seq<PaymentEvent>, provider: Provider, types: seq<EventType>, from: Millis): (r: seq<PaymentEvent>)
    ensures forall e :: e in r <==> e in log && Matches(e, provider, types, from)
  {
    var m := Matching(log, provider, types, from);
    assert forall e :: e in Reverse(m) <==> e in m by {
      forall e | e in m ensures e in Reverse(m) {
        var i :| 0 <= i < |m| && m[i] == e;
        assert Reverse(m)[|m| - 1 - i] == e;
      }
    }
    Reverse(m)
  }

  /** `findRecentByProviderAndType`: the same filter with one type. */
  function FindRecentByProviderAndType(log: seq<PaymentEvent>, provider: Provider, eventType: EventType, from: Millis): (r: seq<PaymentEvent>)
    ensures forall e :: e in r <==> e in log && e.provider == provider && e.eventType == eventType && e.createdAt >= from
  {
    FindRecentByProviderAndTypes(log, provider, [eventType], from)
  }

  /** `countByProviderAndTypeSince` */
  function CountByProviderAndTypeSince(log: seq<PaymentEvent>, provider: Provider, eventType: EventType, from: Millis): (n: nat)
    ensures n <= |log|
  {
    |Matching(log, provider, [eventType], from)|
  }

  /** The count is the length of the single-type query. */
  lemma CountIsQueryLength(log: seq<PaymentEvent>, provider: Provider, eventType: EventType, from: Millis)
    ensures CountByProviderAndTypeSince(log, provider, eventType, from)
      == |FindRecentByProviderAndType(log, provider, eventType, from)|
  {
  }

  /** Events saved in time order. */
  predicate Chronological(log: seq<PaymentEvent>) {
    forall i, j :: 0 <= i < j < |log| ==> log[i].createdAt <= log[j].createdAt
  }

  lemma {:induction false} MatchingChronological(log: seq<PaymentEvent>, provider: Provider, types: seq<EventType>, from: Millis)
    requires Chronological(log)
    ensures Chronological(Matching(log, provider, types, from))
  {
    if log != [] {
      var init, last := log[..|log| - 1], log[|log| - 1];
      assert Chronological(init);
      MatchingChronological(init, provider, types, from);
      var m := Matching(init, provider, types, from);
      forall e | e in m ensures e.createdAt <= last.createdAt {
        var i :| 0 <= i < |init| && init[i] == e;
      }
      var r := m + (if Matches(last, provider, types, from) then [last] else []);
      forall i, j | 0 <= i < j < |r| ensures r[i].createdAt <= r[j].createdAt {
        if j == |m| {
          assert r[i] in m;
        }
      }
    }
  }

  /** On a log saved in time order, the query returns newest first. */
  lemma NewestFirst(log: seq<PaymentEvent>, provider: Provider, types: seq<EventType>, from: Millis)
    requires Chronological(log)
    ensures var r := FindRecentByProviderAndTypes(log, provider, types, from);
      forall i, j :: 0 <= i < j < |r| ==> r[i].createdAt >= r[j].createdAt
  {
    MatchingChronological(log, provider, types, from);
  }

  /** The number of events of one type among `es`. */
  function CountOfType(es: seq<PaymentEvent>, t: EventType): (n: nat)
    ensures n <= |es|
  {
    if es == [] then 0 else (if es[0].eventType == t then 1 else 0) + CountOfType(es[1..], t)
  }

  /** When the first `n` events are all of type `t`, at least `n` are counted. */
  lemma {:induction false} TypedPrefixCounted(es: seq<PaymentEvent>, t: EventType, n: nat)
    requires n <= |es| && forall k :: 0 <= k < n ==> es[k].eventType == t
    ensures n <= CountOfType(es, t)
  {
    if n > 0 {
      assert forall k :: 0 <= k < n - 1 ==> es[1..][k] == es[k + 1];
      TypedPrefixCounted(es[1..], t, n - 1);
    }
  }
}
