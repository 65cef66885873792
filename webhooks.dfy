/**
 * Provider webhooks: a Stripe event moves the STRIPE intent with that
 * providerRef to SUCCEEDED, FAILED or REFUNDED; an Adyen notification batch
 * is checked item by item against an HMAC-SHA256 signature over eight of
 * the item's fields and applied to the ADYEN intent its merchantReference
 * names. Each applied item is saved and recorded with the health tracker.
 * Signature checking of Stripe events, HMAC-SHA256, Base64, UUID parsing
 * and JSON are parameters of the model.
 */
module Webhooks {
  import opened Wrappers
  import opened Domain
  import opened JavaString
  import opened Fnv
  import opened EventRepository
  import opened Health
  import opened IntentRepository
  import opened Queries
  import opened Settings

  /** Reading a value through an absent properties record. */
  const NULL_POINTER: Failure := Unchecked("NullPointerException")

  // ---------------------------------------------------------------------
  // Constant-time comparison

  /** Bitwise XOR of non-negative integers, bit by bit from the lowest. */
  function BitXor(a: nat, b: nat): nat
    decreases a + b
  {
    if a == 0 && b == 0 then 0 else 2 * BitXor(a / 2, b / 2) + (a % 2 + b % 2) % 2
  }

  /** Bitwise OR of non-negative integers. */
  function BitOr(a: nat, b: nat): nat
    decreases a + b
  {
    if a == 0 && b == 0 then 0 else 2 * BitOr(a / 2, b / 2) + (if a % 2 == 1 || b % 2 == 1 then 1 else 0)
  }

  lemma {:induction false} BitXorZero(a: nat, b: nat)
    ensures BitXor(a, b) == 0 <==> a == b
    decreases a + b
  {
    if !(a == 0 && b == 0) {
      BitXorZero(a / 2, b / 2);
    }
  }

  lemma {:induction false} BitOrZero(a: nat, b: nat)
    ensures BitOr(a, b) == 0 <==> a == 0 && b == 0
    decreases a + b
  {
    if !(a == 0 && b == 0) {
      BitOrZero(a / 2, b / 2);
    }
  }

  /** One more byte pair folded into the accumulator keeps it zero exactly
      while the prefixes agree. */
  lemma FoldStep(acc: nat, pa: seq<byte>, pb: seq<byte>, x: byte, y: byte)
    requires |pa| == |pb|
    requires acc == 0 <==> pa == pb
    ensures BitOr(acc, BitXor(x as int, y as int)) == 0 <==> pa + [x] == pb + [y]
  {
    BitXorZero(x as int, y as int);
    BitOrZero(acc, BitXor(x as int, y as int));
    if pa + [x] == pb + [y] {
      SnocParts(pa, x);
      SnocParts(pb, y);
    }
  }

  /** `constantTimeEquals`: OR together the XOR of every byte pair. */
  method ConstantTimeEquals(a: Option<string>, b: Option<string>) returns (r: bool)
    ensures r <==> a.Some? && b.Some? && Utf8(a.value) == Utf8(b.value)
  {
    if a.None? || b.None? {
      return false;
    }
    var ab := Utf8(a.value);
    var bb := Utf8(b.value);
    if |ab| != |bb| {
      return false;
    }
    // Java XORs the sign-extended bytes as `int`s; that is zero exactly
    // when the XOR of the unsigned bytes is.
    var result: nat := 0;
    for i := 0 to |ab|
      invariant result == 0 <==> ab[..i] == bb[..i]
    {
      FoldStep(result, ab[..i], bb[..i], ab[i], bb[i]);
      TakeSnoc(ab, i);
      TakeSnoc(bb, i);
      result := BitOr(result, BitXor(ab[i] as int, bb[i] as int));
    }
    TakeAll(ab);
    TakeAll(bb);
    r := result == 0;
  }

  // ---------------------------------------------------------------------
  // The Adyen notification and its signed message

  datatype Amount = Amount(currency: Option<string>, value: Option<int>)

  datatype NotificationItem = NotificationItem(
    additionalData: Option<map<string, Option<string>>>,
    amount: Option<Amount>,
    eventCode: Option<string>,
    success: Option<string>,
    merchantReference: Option<string>,
    pspReference: Option<string>,
    originalReference: Option<string>,
    merchantAccountCode: Option<string>)

  /** A parsed request body; a null wrapper or a null item inside it is `None`. */
  datatype NotificationRequest = NotificationRequest(items: Option<seq<Option<NotificationItem>>>)

  function Nvl(s: Option<string>): string {
    s.GetOr("")
  }

  /** `String.valueOf(Long)`: a null value renders as "null". */
  function AmountValueText(v: Option<int>): string {
    if v.None? then "null" else LongToString(v.value)
  }

  /** The eight signed fields, in signing order, with null written as "". */
  function SignedFields(item: NotificationItem): (r: seq<string>)
    ensures |r| == 8
  {
    [Nvl(item.pspReference), Nvl(item.originalReference), Nvl(item.merchantAccountCode),
     Nvl(item.merchantReference),
     if item.amount.None? then "" else AmountValueText(item.amount.value.value),
     if item.amount.None? then "" else Nvl(item.amount.value.currency),
     Nvl(item.eventCode), Nvl(item.success)]
  }

  /** The HMAC message: the signed fields joined with ':', so it starts
      with the pspReference and a ':' and holds at least the seven
      separators. */
  function HmacMessage(item: NotificationItem): (r: string)
    ensures |r| >= 7
    ensures |Nvl(item.pspReference)| < |r| && r[..|Nvl(item.pspReference)| + 1] == Nvl(item.pspReference) + ":"
  {
    var f := SignedFields(item);
    JoinStep(":", f);
    JoinLength(":", f);
    Join(":", f)
  }

  predicate NoColon(s: Option<string>) {
    s.None? || ':' !in s.value
  }

  /** When no text field holds a ':', the message splits back into exactly
      the eight fields, so it names each of them unambiguously. */
  lemma HmacMessageFields(item: NotificationItem)
    requires NoColon(item.pspReference) && NoColon(item.originalReference)
    requires NoColon(item.merchantAccountCode) && NoColon(item.merchantReference)
    requires NoColon(item.eventCode) && NoColon(item.success)
    requires item.amount.Some? ==> NoColon(item.amount.value.currency)
    ensures SplitAll(HmacMessage(item), ':') == SignedFields(item)
  {
    var f := SignedFields(item);
    assert forall k :: 0 <= k < 8 ==> ':' !in f[k];
    SplitAllJoin(f, ':');
  }

  /** The item signed in the unknown-intent webhook test. */
  function TestItem(merchantReference: string): NotificationItem {
    NotificationItem(None, Some(Amount(Some("EUR"), Some(1500))), Some("AUTHORISATION"), Some("true"),
      Some(merchantReference), Some("psp_test_ref"), Some(""), Some("test_account"))
  }

  lemma ValueText1500()
    ensures LongToString(1500) == "1500"
  {
    assert NatToString(1) == "1";
    assert NatToString(15) == "15";
    assert NatToString(150) == "150";
  }

  /** The message for the test item, with the empty original reference
      leaving two adjacent separators. */
  lemma TestItemMessage(merchantReference: string)
    ensures HmacMessage(TestItem(merchantReference))
      == "psp_test_ref::test_account:" + (merchantReference + (":1500:EUR:AUTHORISATION:" + "true"))
  {
    var f := SignedFields(TestItem(merchantReference));
    TestItemFields(merchantReference);
    JoinEight(":", f);
    LiteralPrefix(merchantReference + (":1500:EUR:AUTHORISATION:" + "true"));
    LiteralTail("true");
  }

  lemma LiteralPrefix(x: string)
    ensures "psp_test_ref" + (":" + ("" + (":" + ("test_account" + (":" + x))))) == "psp_test_ref::test_account:" + x
  {
  }

  lemma LiteralTail(y: string)
    ensures ":" + ("1500" + (":" + ("EUR" + (":" + ("AUTHORISATION" + (":" + y)))))) == ":1500:EUR:AUTHORISATION:" + y
  {
  }

  lemma TestItemFields(merchantReference: string)
    ensures SignedFields(TestItem(merchantReference))
      == ["psp_test_ref", "", "test_account", merchantReference, "1500", "EUR", "AUTHORISATION", "true"]
  {
    ValueText1500();
  }

  lemma JoinEight(sep: string, f: seq<string>)
    requires |f| == 8
    ensures Join(sep, f) == f[0] + (sep + (f[1] + (sep + (f[2] + (sep + (f[3]
      + (sep + (f[4] + (sep + (f[5] + (sep + (f[6] + (sep + f[7])))))))))))))
  {
    assert f[7..] == [f[7]];
    forall k | 0 <= k < 7
      ensures Join(sep, f[k..]) == f[k] + (sep + Join(sep, f[k + 1..]))
    {
      JoinStep(sep, f[k..]);
      assert f[k..][1..] == f[k + 1..];
    }
  }

  /** The `hmacSignature` entry of `additionalData`, if any. */
  function Signature(item: NotificationItem): Option<string> {
    match item.additionalData
    case None => None
    case Some(m) => if "hmacSignature" in m then m["hmacSignature"] else None
  }

  /** `verifyAdyenHmac`: a non-blank signature equal, byte for byte, to the
      Base64 of the HMAC of the message's UTF-8 bytes. An empty key makes
      the key specification throw, which counts as a failed check. */
  predicate HmacValid(item: NotificationItem, key: seq<byte>, hmac: (seq<byte>, seq<byte>) -> seq<byte>,
                      encode: seq<byte> -> string) {
    var signature := Signature(item);
    && !IsNullOrBlank(signature)
    && |key| > 0
    && Utf8(encode(hmac(key, Utf8(HmacMessage(item))))) == Utf8(signature.value)
  }

  method VerifyAdyenHmac(item: NotificationItem, key: seq<byte>, hmac: (seq<byte>, seq<byte>) -> seq<byte>,
                         encode: seq<byte> -> string)
    returns (ok: bool)
    ensures ok == HmacValid(item, key, hmac, encode)
    ensures IsNullOrBlank(Signature(item)) ==> !ok
  {
    var signature := Signature(item);
    if IsNullOrBlank(signature) {
      return false;
    }
    if |key| == 0 {
      return false;
    }
    var expected := encode(hmac(key, Utf8(HmacMessage(item))));
    ok := ConstantTimeEquals(Some(expected), signature);
  }

  // ---------------------------------------------------------------------
  // What an event does to the intent table

  /** The health outcome an applied event records. */
  datatype Outcome = PaymentOutcome(success: bool) | RefundOutcome

  /** The sanitized map recorded with the event. */
  datatype Sanitized =
    | StripeSanitized(eventId: string, eventType: string)
    | AdyenSanitized(eventCode: string, success: bool, pspReference: string)

  /** An applied event: the intent row to save and what to record. */
  datatype Update = Update(intent: PaymentIntent, outcome: Outcome, sanitized: Sanitized)

  function StatusAfter(o: Outcome): PaymentStatus {
    match o
    case PaymentOutcome(s) => if s then SUCCEEDED else FAILED
    case RefundOutcome => REFUNDED
  }

  /** The event the health tracker appends for an applied update. */
  function WebhookEvent(p: Provider, u: Update, toJson: Sanitized -> string, now: Millis): PaymentEvent {
    PaymentEvent(p, Some(u.intent.id),
      match u.outcome
      case PaymentOutcome(s) => if s then PAYMENT_SUCCEEDED else PAYMENT_FAILED
      case RefundOutcome => REFUND_SUCCEEDED,
      Some(OtherPayload(toJson(u.sanitized))), now)
  }

  /** The events of a run of updates, in order. */
  function WebhookEvents(p: Provider, us: seq<Update>, toJson: Sanitized -> string, now: Millis): (es: seq<PaymentEvent>)
    ensures |es| == |us|
  {
    if us == [] then [] else WebhookEvents(p, us[..|us| - 1], toJson, now) + [WebhookEvent(p, us[|us| - 1], toJson, now)]
  }

  /** The health rows after one webhook outcome has been appended to `log`. */
  function RowsAfterWebhook(rows: map<Provider, HealthRow>, log: seq<PaymentEvent>, p: Provider, now: Millis)
    : (r: map<Provider, HealthRow>)
    requires RowsOk(rows)
    ensures RowsOk(r)
  {
    rows[p := Recomputed(if p in rows then rows[p] else FreshRow(now), log, p, None, now)]
  }

  /** The health rows after the outcomes `added` have been recorded one by
      one on top of the log `base`. */
  function RowsAfterEach(rows: map<Provider, HealthRow>, base: seq<PaymentEvent>, added: seq<PaymentEvent>,
                         p: Provider, now: Millis)
    : (r: map<Provider, HealthRow>)
    requires RowsOk(rows)
    ensures RowsOk(r)
  {
    if added == [] then rows
    else RowsAfterWebhook(RowsAfterEach(rows, base, added[..|added| - 1], p, now), base + added, p, now)
  }

  // ---------------------------------------------------------------------
  // Stripe

  datatype StripeObject =
    | StripePaymentIntent(id: string)
    | StripeCharge(paymentIntent: Option<string>)
    | OtherStripeObject

  /** A signature-checked Stripe event: its id, type and data object. */
  datatype StripeEvent = StripeEvent(id: string, eventType: string, dataObject: Option<StripeObject>)

  const PI_SUCCEEDED: string := "payment_intent.succeeded"
  const PI_FAILED: string := "payment_intent.payment_failed"
  const CHARGE_REFUNDED: string := "charge.refunded"

  /** `onStripePaymentOutcome` / `onStripeRefund`: the STRIPE intent with
      that providerRef takes the outcome's status, whatever it was. */
  function StripeOutcome(t: Table, providerRef: string, o: Outcome, s: Sanitized): (r: Result<Option<Update>, Failure>)
    ensures r.Ok? && r.value.Some? ==>
      var u := r.value.value;
      && u.outcome == o && u.sanitized == s
      && u.intent.status == StatusAfter(o)
      && exists pi :: pi in t && StripeRef(pi, providerRef) && u.intent == pi.(status := StatusAfter(o))
    ensures r == Ok(None) <==> forall k :: 0 <= k < |t| ==> !StripeRef(t[k], providerRef)
  {
    match FindStripeByProviderRef(t, providerRef)
    case Err(f) => Err(f)
    case Ok(None) => Ok(None)
    case Ok(Some(pi)) => Ok(Some(Update(pi.(status := StatusAfter(o)), o, s)))
  }

  /** The `switch` of `handleStripe` on a verified event. A data object of
      the wrong class fails the cast. */
  function StripeUpdate(t: Table, e: StripeEvent): (r: Result<Option<Update>, Failure>)
    ensures e.eventType !in {PI_SUCCEEDED, PI_FAILED, CHARGE_REFUNDED} || e.dataObject.None? ==> r == Ok(None)
    ensures r.Ok? && r.value.Some? ==>
      r.value.value.sanitized == StripeSanitized(e.id, e.eventType)
      && r.value.value.outcome == (if e.eventType == CHARGE_REFUNDED then RefundOutcome else PaymentOutcome(e.eventType == PI_SUCCEEDED))
  {
    var s := StripeSanitized(e.id, e.eventType);
    if e.eventType == PI_SUCCEEDED || e.eventType == PI_FAILED then
      match e.dataObject
      case None => Ok(None)
      case Some(StripePaymentIntent(ref)) => StripeOutcome(t, ref, PaymentOutcome(e.eventType == PI_SUCCEEDED), s)
      case Some(_) => Err(Unchecked("ClassCastException"))
    else if e.eventType == CHARGE_REFUNDED then
      match e.dataObject
      case None => Ok(None)
      case Some(StripeCharge(None)) => Ok(None)
      case Some(StripeCharge(Some(ref))) => StripeOutcome(t, ref, RefundOutcome, s)
      case Some(_) => Err(Unchecked("ClassCastException"))
    else Ok(None)
  }

  /** Each handled type sets its status on a STRIPE intent of the table and
      changes nothing else about it; any other type is ignored. */
  lemma StripeStatuses(t: Table, e: StripeEvent)
    ensures var r := StripeUpdate(t, e);
      && (e.eventType !in {PI_SUCCEEDED, PI_FAILED, CHARGE_REFUNDED} ==> r == Ok(None))
      && (r.Ok? && r.value.Some? ==>
            var u := r.value.value;
            && u.intent.provider == STRIPE
            && u.intent.status == (if e.eventType == PI_SUCCEEDED then SUCCEEDED
                                   else if e.eventType == PI_FAILED then FAILED else REFUNDED)
            && exists pi :: pi in t && u.intent == pi.(status := u.intent.status))
  {
    var r := StripeUpdate(t, e);
    if r.Ok? && r.value.Some? {
      var u := r.value.value;
      var ref := if e.eventType == CHARGE_REFUNDED then e.dataObject.value.paymentIntent.value else e.dataObject.value.id;
      var pi :| pi in t && StripeRef(pi, ref) && u.intent == pi.(status := StatusAfter(u.outcome));
      assert u.intent == pi.(status := u.intent.status);
    }
  }

  /** `handleStripe` up to the switch: the `stripe` properties record
      (read without a null check), the configured secret, then the
      signature check, then the event. */
  function StripeHandling(props: Properties, verified: Option<StripeEvent>, t: Table): Result<Option<Update>, Failure> {
    if StripeRecord(props).None? then Err(NULL_POINTER)
    else if IsNullOrBlank(StripeRecord(props).value.webhookSecret) then
      Err(Api(INTERNAL_SERVER_ERROR, "Stripe webhook secret not configured"))
    else match verified
      case None => Err(Api(UNAUTHORIZED, "Invalid Stripe-Signature"))
      case Some(e) => StripeUpdate(t, e)
  }

  // ---------------------------------------------------------------------
  // Adyen

  /** `applyAdyenItem` on a verified item: what it does to the table.
      `parseUuid` is `UUID.fromString`, giving the canonical text; a null
      pspReference makes `Map.of` throw. */
  function AdyenUpdate(t: Table, item: NotificationItem, parseUuid: string -> Option<Uuid>): (r: Result<Option<Update>, Failure>)
    ensures item.merchantReference.None? ==> r == Ok(None)
    ensures item.merchantReference.Some? && parseUuid(item.merchantReference.value).None? ==> r == Ok(None)
    ensures r.Ok? && r.value.Some? ==>
      var u := r.value.value;
      && u.intent.provider == ADYEN
      && FindById(t, u.intent.id).Some?
      && u.intent == FindById(t, u.intent.id).value.(status := u.intent.status, providerRef := u.intent.providerRef)
  {
    if item.merchantReference.None? then Ok(None)
    else match parseUuid(item.merchantReference.value)
      case None => Ok(None)
      case Some(id) =>
        match FindById(t, id)
        case None => Ok(None)
        case Some(pi) =>
          if pi.provider != ADYEN then Ok(None)
          else
            var success := item.success.Some? && EqualsIgnoreCase("true", item.success.value);
            var eventCode := Nvl(item.eventCode);
            if item.pspReference.None? then Err(NULL_POINTER)
            else
              var psp := item.pspReference.value;
              var s := AdyenSanitized(eventCode, success, psp);
              if EqualsIgnoreCase("AUTHORISATION", eventCode) then
                var ref := if !IsBlank(psp) then Some(psp) else pi.providerRef;
                Ok(Some(Update(pi.(status := if success then SUCCEEDED else FAILED, providerRef := ref),
                               PaymentOutcome(success), s)))
              else if EqualsIgnoreCase("REFUND", eventCode) && success then
                Ok(Some(Update(pi.(status := REFUNDED), RefundOutcome, s)))
              else Ok(None)
  }

  /** AUTHORISATION sets SUCCEEDED exactly when success is "true" in any
      case, and a non-blank pspReference becomes the providerRef; a
      successful REFUND sets REFUNDED; anything else changes nothing. */
  lemma AdyenTransitions(t: Table, item: NotificationItem, parseUuid: string -> Option<Uuid>)
    ensures var r := AdyenUpdate(t, item, parseUuid);
      var success := item.success.Some? && EqualsIgnoreCase("true", item.success.value);
      var code := Nvl(item.eventCode);
      && (r.Ok? && r.value.Some? && EqualsIgnoreCase("AUTHORISATION", code) ==>
            && r.value.value.intent.status == (if success then SUCCEEDED else FAILED)
            && r.value.value.outcome == PaymentOutcome(success)
            && (item.pspReference.Some? && !IsBlank(item.pspReference.value) ==>
                  r.value.value.intent.providerRef == item.pspReference))
      && (r.Ok? && r.value.Some? && !EqualsIgnoreCase("AUTHORISATION", code) ==>
            EqualsIgnoreCase("REFUND", code) && success
            && r.value.value.intent.status == REFUNDED && r.value.value.outcome == RefundOutcome)
  {
  }

  /** An item naming no ADYEN intent of the table is ignored. */
  lemma UnknownIntentIgnored(t: Table, item: NotificationItem, parseUuid: string -> Option<Uuid>)
    requires item.merchantReference.Some? && parseUuid(item.merchantReference.value).Some?
    requires var id := parseUuid(item.merchantReference.value).value;
      forall k :: 0 <= k < |t| ==> t[k].id == id ==> t[k].provider != ADYEN
    ensures AdyenUpdate(t, item, parseUuid) == Ok(None)
  {
    var id := parseUuid(item.merchantReference.value).value;
    var found := FindById(t, id);
    if found.Some? {
      var k :| 0 <= k < |t| && t[k] == found.value;
    }
  }

  /** One turn of the loop of `handleAdyen`: a null entry throws, a bad
      signature is refused, then the item is applied. */
  function ItemStep(t: Table, entry: Option<NotificationItem>, key: seq<byte>,
                    hmac: (seq<byte>, seq<byte>) -> seq<byte>, encode: seq<byte> -> string,
                    parseUuid: string -> Option<Uuid>)
    : (r: Result<Option<Update>, Failure>)
    ensures r.Ok? ==> entry.Some? && HmacValid(entry.value, key, hmac, encode)
    ensures entry.Some? && !HmacValid(entry.value, key, hmac, encode) ==> r == Err(INVALID_HMAC)
    ensures r.Ok? && r.value.Some? ==> r.value.value.intent.provider == ADYEN
  {
    match entry
    case None => Err(NULL_POINTER)
    case Some(item) =>
      if !HmacValid(item, key, hmac, encode) then Err(INVALID_HMAC)
      else AdyenUpdate(t, item, parseUuid)
  }

  /** The result of a batch: the table after it, the updates applied in
      order, and the exception that stopped it, if any. */
  datatype BatchOutcome = BatchOutcome(table: Table, updates: seq<Update>, failure: Option<Failure>)

  const INVALID_HMAC: Failure := Api(UNAUTHORIZED, "Invalid Adyen HMAC")

  /** The table after a step that went through. */
  function Next(t: Table, s: Result<Option<Update>, Failure>): Table {
    if s.Ok? && s.value.Some? then Saved(t, s.value.value.intent) else t
  }

  /** A loop turn as a value: what `ItemStep` does with these keys. */
  type StepFn = (Table, Option<NotificationItem>) -> Result<Option<Update>, Failure>

  function AdyenStep(key: seq<byte>, hmac: (seq<byte>, seq<byte>) -> seq<byte>, encode: seq<byte> -> string,
                     parseUuid: string -> Option<Uuid>)
    : StepFn
  {
    (t, entry) => ItemStep(t, entry, key, hmac, encode, parseUuid)
  }

  /** The loop of `handleAdyen`: one step per item; the first item that
      fails stops the batch and the items before it stay applied. */
  function Batch(t: Table, items: seq<Option<NotificationItem>>, step: StepFn): (b: BatchOutcome)
    decreases |items|
  {
    if items == [] then BatchOutcome(t, [], None)
    else
      var s := step(t, items[0]);
      if s.Err? then BatchOutcome(t, [], Some(s.error))
      else
        var rest := Batch(Next(t, s), items[1..], step);
        BatchOutcome(rest.table, (if s.value.Some? then [s.value.value] else []) + rest.updates, rest.failure)
  }

  /** A batch goes through only if every item passes what each step that
      goes through demands of its item. */
  lemma {:induction false} AcceptedItems(t: Table, items: seq<Option<NotificationItem>>, step: StepFn,
                                         good: Option<NotificationItem> -> bool)
    requires forall t': Table, e: Option<NotificationItem> :: step(t', e).Ok? ==> good(e)
    requires Batch(t, items, step).failure.None?
    ensures forall k :: 0 <= k < |items| ==> good(items[k])
    decreases |items|
  {
    if items != [] {
      var s := step(t, items[0]);
      AcceptedItems(Next(t, s), items[1..], step, good);
      assert forall k :: 1 <= k < |items| ==> items[k] == items[1..][k - 1];
    }
  }

  /** Every applied update satisfies what each step promises of its update. */
  lemma {:induction false} AppliedUpdates(t: Table, items: seq<Option<NotificationItem>>, step: StepFn,
                                          good: Update -> bool)
    requires forall t': Table, e: Option<NotificationItem> :: step(t', e).Ok? && step(t', e).value.Some? ==> good(step(t', e).value.value)
    ensures forall u :: u in Batch(t, items, step).updates ==> good(u)
    decreases |items|
  {
    if items != [] {
      var s := step(t, items[0]);
      if s.Ok? {
        AppliedUpdates(Next(t, s), items[1..], step, good);
      }
    }
  }

  /** A batch is not atomic: a prefix that went through stays applied
      whatever the items after it do. */
  lemma {:induction false} BatchSplits(t: Table, a: seq<Option<NotificationItem>>, b: seq<Option<NotificationItem>>,
                                       step: StepFn)
    requires Batch(t, a, step).failure.None?
    ensures var first := Batch(t, a, step);
      var second := Batch(first.table, b, step);
      Batch(t, a + b, step) == BatchOutcome(second.table, first.updates + second.updates, second.failure)
    decreases |a|
  {
    if a == [] {
      assert a + b == b;
    } else {
      var s := step(t, a[0]);
      var next := Next(t, s);
      BatchSplits(next, a[1..], b, step);
      assert (a + b)[0] == a[0] && (a + b)[1..] == a[1..] + b;
      var rest := Batch(next, a[1..], step);
      var second := Batch(rest.table, b, step);
      var head: seq<Update> := if s.value.Some? then [s.value.value] else [];
      AppendAssoc(head, rest.updates, second.updates);
      BatchStep(t, a, step);
      BatchStep(t, a + b, step);
    }
  }

  /** One turn of the loop over a batch whose first `i` items produced `done`. */
  lemma BatchTurn(whole: BatchOutcome, t: Table, items: seq<Option<NotificationItem>>, i: nat, step: StepFn,
                  done: seq<Update>)
    requires i < |items|
    requires var rest := Batch(t, items[i..], step);
      whole == BatchOutcome(rest.table, done + rest.updates, rest.failure)
    ensures var s := step(t, items[i]);
      && (s.Err? ==> whole == BatchOutcome(t, done, Some(s.error)))
      && (s.Ok? && s.value.Some? ==>
            var rest := Batch(Next(t, s), items[i + 1..], step);
            whole == BatchOutcome(rest.table, (done + [s.value.value]) + rest.updates, rest.failure))
      && (s.Ok? && s.value.None? ==>
            var rest := Batch(Next(t, s), items[i + 1..], step);
            whole == BatchOutcome(rest.table, done + rest.updates, rest.failure))
  {
    var tail := items[i..];
    assert tail[0] == items[i] && tail[1..] == items[i + 1..];
    var s := step(t, items[i]);
    if s.Err? {
      BatchStops(t, tail, step);
      assert done + [] == done;
    } else {
      BatchStep(t, tail, step);
      var rest := Batch(Next(t, s), items[i + 1..], step);
      if s.value.Some? {
        AppendAssoc(done, [s.value.value], rest.updates);
      } else {
        assert [] + rest.updates == rest.updates;
      }
    }
  }

  /** An item that fails ends the batch with its failure. */
  lemma BatchStops(t: Table, items: seq<Option<NotificationItem>>, step: StepFn)
    requires items != [] && step(t, items[0]).Err?
    ensures Batch(t, items, step) == BatchOutcome(t, [], Some(step(t, items[0]).error))
  {
  }

  /** An item that goes through adds its update in front of the rest of the batch. */
  lemma BatchStep(t: Table, items: seq<Option<NotificationItem>>, step: StepFn)
    requires items != [] && step(t, items[0]).Ok?
    ensures var s := step(t, items[0]);
      var rest := Batch(Next(t, s), items[1..], step);
      Batch(t, items, step)
        == BatchOutcome(rest.table, (if s.value.Some? then [s.value.value] else []) + rest.updates, rest.failure)
  {
  }

  predicate SignedEntry(key: seq<byte>, hmac: (seq<byte>, seq<byte>) -> seq<byte>, encode: seq<byte> -> string,
                        entry: Option<NotificationItem>) {
    entry.Some? && HmacValid(entry.value, key, hmac, encode)
  }

  function SignedBy(key: seq<byte>, hmac: (seq<byte>, seq<byte>) -> seq<byte>, encode: seq<byte> -> string)
    : Option<NotificationItem> -> bool
  {
    entry => SignedEntry(key, hmac, encode, entry)
  }

  function ForAdyen(u: Update): bool {
    u.intent.provider == ADYEN
  }

  /** An Adyen batch goes through only if every item is present and
      correctly signed, and every update it applies is to an ADYEN intent. */
  lemma AdyenBatchGuards(t: Table, items: seq<Option<NotificationItem>>, key: seq<byte>,
                         hmac: (seq<byte>, seq<byte>) -> seq<byte>, encode: seq<byte> -> string,
                         parseUuid: string -> Option<Uuid>)
    ensures var b := Batch(t, items, AdyenStep(key, hmac, encode, parseUuid));
      && (b.failure.None? ==> forall k :: 0 <= k < |items| ==> items[k].Some? && HmacValid(items[k].value, key, hmac, encode))
      && (forall u :: u in b.updates ==> u.intent.provider == ADYEN)
  {
    var step := AdyenStep(key, hmac, encode, parseUuid);
    if Batch(t, items, step).failure.None? {
      AcceptedItems(t, items, step, SignedBy(key, hmac, encode));
    }
    AppliedUpdates(t, items, step, ForAdyen);
  }

  /** `handleAdyen` before the loop: the `adyen` properties record (read
      without a null check), the configured key, the body, the key's Base64
      and the item list, each failing in that order. A key the decoder
      refuses is an `IllegalArgumentException` with the decoder's own
      message. */
  function AdyenPrecheck(props: Properties, parsed: Option<NotificationRequest>,
                         decode: string -> Result<seq<byte>, string>)
    : Result<(seq<Option<NotificationItem>>, seq<byte>), Failure>
  {
    if AdyenRecord(props).None? then Err(NULL_POINTER)
    else if IsNullOrBlank(AdyenRecord(props).value.hmacKey) then Err(Api(INTERNAL_SERVER_ERROR, "Adyen HMAC key not configured"))
    else if parsed.None? then Err(Api(BAD_REQUEST, "Invalid Adyen webhook body"))
    else
      var decoded := decode(AdyenRecord(props).value.hmacKey.value);
      if decoded.Err? then Err(IllegalArgument(decoded.error))
      else if parsed.value.items.None? then Err(NULL_POINTER)
      else Ok((parsed.value.items.value, decoded.value))
  }

  const ACCEPTED: string := "[accepted]"

  // ---------------------------------------------------------------------
  // The service

  class WebhookService {
    /** `app.providers` */
    const props: Properties
    const store: IntentStore
    const health: HealthTracker
    /** The object mapper writing a sanitized map as JSON. */
    const toJson: Sanitized -> string

    ghost predicate Valid()
      reads this, store, health
    {
      store.Valid() && health.Valid()
    }

    constructor (props: Properties, store: IntentStore,
                 health: HealthTracker, toJson: Sanitized -> string)
      ensures this.props == props
      ensures this.store == store && this.health == health && this.toJson == toJson
    {
      this.props := props;
      this.store := store;
      this.health := health;
      this.toJson := toJson;
    }

    /** Save the updated intent, then record the outcome for `p`. */
    method Apply(p: Provider, u: Update, now: Millis)
      requires Valid()
      modifies store, health
      ensures Valid()
      ensures store.table == Saved(old(store.table), u.intent)
      ensures health.events == old(health.events) + [WebhookEvent(p, u, toJson, now)]
      ensures health.rows == RowsAfterWebhook(old(health.rows), health.events, p, now)
    {
      var payload := Some(OtherPayload(toJson(u.sanitized)));
      match u.outcome
      case PaymentOutcome(success) =>
        assert WebhookEvent(p, u, toJson, now)
            == PaymentEvent(p, Some(u.intent.id), if success then PAYMENT_SUCCEEDED else PAYMENT_FAILED, payload, now);
        store.Save(u.intent);
        health.RecordPaymentOutcome(p, u.intent.id, success, payload, now);
      case RefundOutcome =>
        assert WebhookEvent(p, u, toJson, now) == PaymentEvent(p, Some(u.intent.id), REFUND_SUCCEEDED, payload, now);
        store.Save(u.intent);
        health.RecordRefundOutcome(p, u.intent.id, payload, now);
    }

    /** `handleStripe`; `construct` is the SDK's signature check and parse
        of (payload, header, secret). */
    method HandleStripe(payload: string, signatureHeader: string,
                        construct: (string, string, string) -> Option<StripeEvent>, now: Millis)
      returns (r: Result<(), Failure>)
      requires Valid()
      modifies store, health
      ensures Valid()
      ensures var secret := if StripeRecord(props).None? then None else StripeRecord(props).value.webhookSecret;
        var verified := if IsNullOrBlank(secret) then None else construct(payload, signatureHeader, secret.value);
        var s := StripeHandling(props, verified, old(store.table));
        && (s.Err? ==> r == Err(s.error))
        && (s.Ok? ==> r == Ok(()))
        && (s.Ok? && s.value.Some? ==>
              && store.table == Saved(old(store.table), s.value.value.intent)
              && health.events == old(health.events) + [WebhookEvent(STRIPE, s.value.value, toJson, now)]
              && health.rows == RowsAfterWebhook(old(health.rows), health.events, STRIPE, now))
        && (!(s.Ok? && s.value.Some?) ==>
              store.table == old(store.table) && health.events == old(health.events) && health.rows == old(health.rows))
    {
      var stripe := StripeRecord(props);
      if stripe.None? {
        return Err(NULL_POINTER);
      }
      var webhookSecret := stripe.value.webhookSecret;
      if IsNullOrBlank(webhookSecret) {
        return Err(Api(INTERNAL_SERVER_ERROR, "Stripe webhook secret not configured"));
      }
      var verified := construct(payload, signatureHeader, webhookSecret.value);
      if verified.None? {
        return Err(Api(UNAUTHORIZED, "Invalid Stripe-Signature"));
      }
      var update := StripeUpdate(store.table, verified.value);
      match update
      case Err(f) =>
        r := Err(f);
      case Ok(None) =>
        r := Ok(());
      case Ok(Some(u)) =>
        Apply(STRIPE, u, now);
        r := Ok(());
    }

    /** `handleAdyen`; `parse` reads the body, `decode` is the JDK Base64
        decoder, failing with the message of its `IllegalArgumentException`
        ("Illegal base64 character " and the character in hex, or one of
        its messages about the last unit), `hmac` is HMAC-SHA256 (key, message) and `encode` the
        Base64 encoder. */
    method HandleAdyen(payload: string, parse: string -> Option<NotificationRequest>,
                       decode: string -> Result<seq<byte>, string>, hmac: (seq<byte>, seq<byte>) -> seq<byte>,
                       encode: seq<byte> -> string, parseUuid: string -> Option<Uuid>, now: Millis)
      returns (r: Result<string, Failure>)
      requires Valid()
      modifies store, health
      ensures Valid()
      ensures var pre := AdyenPrecheck(props, parse(payload), decode);
        && (pre.Err? ==> r == Err(pre.error) && store.table == old(store.table)
                         && health.events == old(health.events) && health.rows == old(health.rows))
        && (pre.Ok? ==>
              var b := Batch(old(store.table), pre.value.0, AdyenStep(pre.value.1, hmac, encode, parseUuid));
              var added := WebhookEvents(ADYEN, b.updates, toJson, now);
              && store.table == b.table
              && health.events == old(health.events) + added
              && health.rows == RowsAfterEach(old(health.rows), old(health.events), added, ADYEN, now)
              && r == (if b.failure.None? then Ok(ACCEPTED) else Err(b.failure.value)))
    {
      var adyen := AdyenRecord(props);
      if adyen.None? {
        return Err(NULL_POINTER);
      }
      var hmacKeyBase64 := adyen.value.hmacKey;
      if IsNullOrBlank(hmacKeyBase64) {
        return Err(Api(INTERNAL_SERVER_ERROR, "Adyen HMAC key not configured"));
      }
      var request := parse(payload);
      if request.None? {
        return Err(Api(BAD_REQUEST, "Invalid Adyen webhook body"));
      }
      var key := decode(hmacKeyBase64.value);
      if key.Err? {
        return Err(IllegalArgument(key.error));
      }
      if request.value.items.None? {
        return Err(NULL_POINTER);
      }
      var items := request.value.items.value;
      r := ProcessItems(items, key.value, hmac, encode, parseUuid, now);
    }

    /** One turn of the loop: verify the entry, then apply the item. */
    method ProcessItem(entry: Option<NotificationItem>, key: seq<byte>,
                       hmac: (seq<byte>, seq<byte>) -> seq<byte>, encode: seq<byte> -> string,
                       parseUuid: string -> Option<Uuid>, now: Millis)
      returns (failure: Option<Failure>)
      requires Valid()
      modifies store, health
      ensures Valid()
      ensures var s := ItemStep(old(store.table), entry, key, hmac, encode, parseUuid);
        && failure == (if s.Err? then Some(s.error) else None)
        && store.table == Next(old(store.table), s)
        && (s.Ok? && s.value.Some? ==>
              && health.events == old(health.events) + [WebhookEvent(ADYEN, s.value.value, toJson, now)]
              && health.rows == RowsAfterWebhook(old(health.rows), health.events, ADYEN, now))
        && (!(s.Ok? && s.value.Some?) ==> health.events == old(health.events) && health.rows == old(health.rows))
    {
      if entry.None? {
        return Some(NULL_POINTER);
      }
      var item := entry.value;
      var ok := VerifyAdyenHmac(item, key, hmac, encode);
      if !ok {
        return Some(INVALID_HMAC);
      }
      var update := AdyenUpdate(store.table, item, parseUuid);
      match update
      case Err(f) =>
        failure := Some(f);
      case Ok(None) =>
        failure := None;
      case Ok(Some(u)) =>
        Apply(ADYEN, u, now);
        failure := None;
    }

    /** The loop of `handleAdyen` over the items. */
    method ProcessItems(items: seq<Option<NotificationItem>>, key: seq<byte>,
                        hmac: (seq<byte>, seq<byte>) -> seq<byte>, encode: seq<byte> -> string,
                        parseUuid: string -> Option<Uuid>, now: Millis)
      returns (r: Result<string, Failure>)
      requires Valid()
      modifies store, health
      ensures Valid()
      ensures var b := Batch(old(store.table), items, AdyenStep(key, hmac, encode, parseUuid));
        var added := WebhookEvents(ADYEN, b.updates, toJson, now);
        && store.table == b.table
        && health.events == old(health.events) + added
        && health.rows == RowsAfterEach(old(health.rows), old(health.events), added, ADYEN, now)
        && r == (if b.failure.None? then Ok(ACCEPTED) else Err(b.failure.value))
    {
      ghost var step := AdyenStep(key, hmac, encode, parseUuid);
      ghost var whole := Batch(store.table, items, step);
      ghost var e0, r0 := health.events, health.rows;
      ghost var done: seq<Update> := [];
      assert items[0..] == items;
      var i := 0;
      while i < |items|
        invariant 0 <= i <= |items|
        invariant Valid()
        invariant var rest := Batch(store.table, items[i..], step);
          whole == BatchOutcome(rest.table, done + rest.updates, rest.failure)
        invariant Recorded(e0, r0, done, health.events, health.rows, now)
      {
        ghost var t := store.table;
        ghost var events, rows := health.events, health.rows;
        BatchTurn(whole, t, items, i, step, done);
        assert step(t, items[i]) == ItemStep(t, items[i], key, hmac, encode, parseUuid);
        var failure := ProcessItem(items[i], key, hmac, encode, parseUuid, now);
        if failure.Some? {
          return Err(failure.value);
        }
        ghost var s := step(t, items[i]);
        assert store.table == Next(t, s);
        if s.value.Some? {
          RecordedOneMore(e0, r0, done, s.value.value, events, rows, health.events, health.rows, now);
          done := done + [s.value.value];
        } else {
          assert health.events == events && health.rows == rows;
        }
        assert Recorded(e0, r0, done, health.events, health.rows, now);
        i := i + 1;
      }
      assert items[i..] == [];
      assert done + [] == done;
      r := Ok(ACCEPTED);
    }

    /** The health tracker holds the base log and rows with the events of `done` recorded in order. */
    ghost predicate Recorded(e0: seq<PaymentEvent>, r0: map<Provider, HealthRow>, done: seq<Update>,
                             events: seq<PaymentEvent>, rows: map<Provider, HealthRow>, now: Millis)
      reads this
    {
      && RowsOk(r0)
      && events == e0 + WebhookEvents(ADYEN, done, toJson, now)
      && rows == RowsAfterEach(r0, e0, WebhookEvents(ADYEN, done, toJson, now), ADYEN, now)
    }

    /** Recording one more update keeps the tracker in step with `done + [u]`. */
    lemma RecordedOneMore(e0: seq<PaymentEvent>, r0: map<Provider, HealthRow>, done: seq<Update>, u: Update,
                          events: seq<PaymentEvent>, rows: map<Provider, HealthRow>,
                          events': seq<PaymentEvent>, rows': map<Provider, HealthRow>, now: Millis)
      requires Recorded(e0, r0, done, events, rows, now)
      requires events' == events + [WebhookEvent(ADYEN, u, toJson, now)]
      requires RowsOk(rows) && rows' == RowsAfterWebhook(rows, events', ADYEN, now)
      ensures Recorded(e0, r0, done + [u], events', rows', now)
    {
      var before := WebhookEvents(ADYEN, done, toJson, now);
      var e := WebhookEvent(ADYEN, u, toJson, now);
      assert (done + [u])[..|done|] == done;
      assert WebhookEvents(ADYEN, done + [u], toJson, now) == before + [e];
      assert (before + [e])[..|before|] == before;
      AppendAssoc(e0, before, [e]);
    }
  }
}
