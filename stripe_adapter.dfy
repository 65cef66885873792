/**
 * `StripeAdapter`: the credential check, the Stripe PaymentIntent request
 * built from a create-session command, the provider idempotency key, the
 * checkout configuration handed back, and the classification of the SDK's
 * exceptions. The SDK's API key is a process-wide setting the adapter
 * assigns before every call; the SDK calls themselves are the functions
 * `create` and `refundCall`.
 */
module StripeAdapter {
  import opened Wrappers
  import opened Domain
  import opened JavaString
  import opened ConfigMaps
  import opened Settings
  import opened Adapters
  import opened Queries

  /** A `StripeException`: whether it is an `ApiConnectionException`, and
      its HTTP status code, which may be null. */
  datatype StripeException = StripeException(connection: bool, status: Option<int>)

  /** The fields of `PaymentIntentCreateParams` the adapter sets. */
  datatype IntentParams = IntentParams(
    amount: int,
    currency: string,
    automaticPaymentMethods: bool,
    metadata: map<string, string>,
    description: Option<string>)

  /** The created PaymentIntent as the adapter reads it. */
  datatype StripeIntent = StripeIntent(id: string, clientSecret: Option<string>)

  /** The fields of `RefundCreateParams` the adapter sets. */
  datatype RefundParams = RefundParams(paymentIntent: Option<string>, amount: int)

  const REQUEST_FAILED: string := "Stripe request failed"
  const NOT_CONFIGURED: string := "Stripe is not configured"

  /** The error kind of an SDK exception: a connection failure or a 408 is a
      timeout, 5xx a server error, any other 4xx a validation error, and
      everything else (no status, or one below 400) unknown. */
  function StripeKind(e: StripeException): (k: ProviderErrorType)
    ensures k == TIMEOUT <==> e.connection || e.status == Some(408)
    ensures k == HTTP_5XX <==> !e.connection && e.status.Some? && e.status.value >= 500
    ensures k == VALIDATION <==> !e.connection && e.status.Some? && 400 <= e.status.value < 500 && e.status.value != 408
    ensures k == UNKNOWN <==> !e.connection && (e.status.None? || e.status.value < 400)
    ensures k != PROVIDER_DECLINE
  {
    if e.connection then TIMEOUT
    else if e.status.None? then UNKNOWN
    else if e.status.value >= 500 then HTTP_5XX
    else if e.status.value == 408 then TIMEOUT
    else if e.status.value >= 400 then VALIDATION
    else UNKNOWN
  }

  /** `mapStripeException`: the kind starts as UNKNOWN and is overwritten
      by the first branch that applies. */
  method MapStripeException(e: StripeException) returns (err: AdapterException)
    ensures err == ProviderException(STRIPE, StripeKind(e), REQUEST_FAILED)
  {
    var kind := UNKNOWN;
    if e.connection {
      kind := TIMEOUT;
    } else if e.status.Some? {
      var status := e.status.value;
      if status >= 500 {
        kind := HTTP_5XX;
      } else if status == 408 {
        kind := TIMEOUT;
      } else if status >= 400 && status < 500 {
        kind := VALIDATION;
      }
    }
    err := ProviderException(STRIPE, kind, REQUEST_FAILED);
  }

  /** The key sent with the PaymentIntent request: the merchant, then the
      client's idempotency key, or the intent id when there is none. */
  function ProviderIdempotencyKey(cmd: CreateSessionCommand): (key: string)
    ensures StartsWith(key, "po:" + cmd.merchantId + ":")
  {
    "po:" + cmd.merchantId + ":"
      + (if IsNullOrBlank(cmd.idempotencyKey) then cmd.paymentIntentId else cmd.idempotencyKey.value)
  }

  /** A retried request with the same merchant and client key reuses the
      provider key, and two keyless requests of one merchant share a
      provider key only when they are for the same intent. */
  lemma ProviderKeyIdentifiesRequest(c1: CreateSessionCommand, c2: CreateSessionCommand)
    requires c1.merchantId == c2.merchantId
    ensures !IsNullOrBlank(c1.idempotencyKey) && c1.idempotencyKey == c2.idempotencyKey
      ==> ProviderIdempotencyKey(c1) == ProviderIdempotencyKey(c2)
    ensures IsNullOrBlank(c1.idempotencyKey) && IsNullOrBlank(c2.idempotencyKey)
      && ProviderIdempotencyKey(c1) == ProviderIdempotencyKey(c2)
      ==> c1.paymentIntentId == c2.paymentIntentId
  {
    if IsNullOrBlank(c1.idempotencyKey) && IsNullOrBlank(c2.idempotencyKey)
      && ProviderIdempotencyKey(c1) == ProviderIdempotencyKey(c2)
    {
      PrefixCancels("po:" + c1.merchantId + ":", c1.paymentIntentId, c2.paymentIntentId);
    }
  }

  /** The PaymentIntent request: the amount, the currency in lower case,
      automatic payment methods, the intent and merchant ids as metadata,
      and the description only when it is not blank. */
  function IntentParamsFor(cmd: CreateSessionCommand): (p: IntentParams)
    ensures p.metadata.Keys == {"pasarela_payment_intent_id", "pasarela_merchant_id"}
  {
    IntentParams(
      cmd.amountMinor,
      ToLower(cmd.currency),
      true,
      map["pasarela_payment_intent_id" := cmd.paymentIntentId, "pasarela_merchant_id" := cmd.merchantId],
      if IsNullOrBlank(cmd.description) then None else cmd.description)
  }

  /** Stripe receives no upper-case letter in the currency, and the same
      letters otherwise. */
  lemma CurrencyLowerCased(cmd: CreateSessionCommand)
    ensures |IntentParamsFor(cmd).currency| == |cmd.currency|
    ensures forall i :: 0 <= i < |cmd.currency| ==> !('A' <= IntentParamsFor(cmd).currency[i] <= 'Z')
    ensures forall i :: 0 <= i < |cmd.currency| ==> UpperChar(IntentParamsFor(cmd).currency[i]) == UpperChar(cmd.currency[i])
  {
  }

  /** The checkout configuration of a created PaymentIntent. */
  function StripeCheckout(publishableKey: string, clientSecret: Option<string>): (c: Checkout)
  {
    map["type" := Text("STRIPE"),
        "publishableKey" := Text(publishableKey),
        "clientSecret" := if clientSecret.Some? then Text(clientSecret.value) else Null]
  }

  /** The configuration holds exactly the type, the publishable key and the
      client secret. */
  lemma StripeCheckoutShape(publishableKey: string, clientSecret: Option<string>)
    ensures StripeCheckout(publishableKey, clientSecret).Keys == {"type", "publishableKey", "clientSecret"}
    ensures StripeCheckout(publishableKey, clientSecret)["type"] == Text("STRIPE")
    ensures StripeCheckout(publishableKey, clientSecret)["publishableKey"] == Text(publishableKey)
  {
  }

  /** The SDK call that creates a PaymentIntent with the API key, the
      request and the idempotency key. */
  type CreateCall = (string, IntentParams, string) -> Result<StripeIntent, StripeException>

  /** The SDK call that creates a refund. */
  type RefundCall = (string, RefundParams) -> Result<string, StripeException>

  class Adapter {
    /** `Stripe.apiKey`, shared by every SDK call of the process. */
    var sdkApiKey: Option<string>
    /** `Stripe.enableTelemetry` */
    var telemetry: bool
    /** `app.providers`, whose `stripe` record holds the global keys */
    const props: Properties
    const create: CreateCall
    const refundCall: RefundCall

    constructor (props: Properties, create: CreateCall, refundCall: RefundCall)
      ensures this.props == props && this.create == create && this.refundCall == refundCall
      ensures sdkApiKey.None? && telemetry
    {
      this.props := props;
      this.create := create;
      this.refundCall := refundCall;
      sdkApiKey := None;
      telemetry := true;
    }

    function SecretKey(cfg: Option<Config>): Option<string>
      requires StripeRecord(props).Some?
    {
      ResolveConfigValue(cfg, "secretKey", StripeRecord(props).value.secretKey)
    }

    function PublishableKey(cfg: Option<Config>): Option<string>
      requires StripeRecord(props).Some?
    {
      ResolveConfigValue(cfg, "publishableKey", StripeRecord(props).value.publishableKey)
    }

    /** `createSession`. Without the Stripe properties record, reading the
        global keys throws `NullPointerException` before anything happens.
        Without a secret and a publishable key it fails with VALIDATION
        and touches nothing; otherwise the SDK key is set to the secret,
        the PaymentIntent is created with the provider idempotency key, and
        its id and client secret come back. */
    method CreateSession(cmd: CreateSessionCommand) returns (r: Outcome<CreateSessionResult>)
      modifies this
      ensures StripeRecord(props).None? ==>
                r == Err(NullPointerException) && sdkApiKey == old(sdkApiKey) && telemetry == old(telemetry)
      ensures StripeRecord(props).Some? ==>
              var secret := SecretKey(cmd.providerConfig);
              var pk := PublishableKey(cmd.providerConfig);
              if IsNullOrBlank(secret) || IsNullOrBlank(pk) then
                && r == Err(ProviderException(STRIPE, VALIDATION, NOT_CONFIGURED))
                && sdkApiKey == old(sdkApiKey) && telemetry == old(telemetry)
              else
                && sdkApiKey == secret && !telemetry
                && match create(secret.value, IntentParamsFor(cmd), ProviderIdempotencyKey(cmd))
                   case Ok(pi) => r == Ok(CreateSessionResult(pi.id, StripeCheckout(pk.value, pi.clientSecret)))
                   case Err(e) => r == Err(ProviderException(STRIPE, StripeKind(e), REQUEST_FAILED))
    {
      if StripeRecord(props).None? {
        return Err(NullPointerException);
      }
      var secret := SecretKey(cmd.providerConfig);
      var pk := PublishableKey(cmd.providerConfig);
      if IsNullOrBlank(secret) || IsNullOrBlank(pk) {
        return Err(ProviderException(STRIPE, VALIDATION, NOT_CONFIGURED));
      }
      sdkApiKey := secret;
      telemetry := false;
      var outcome := create(sdkApiKey.value, IntentParamsFor(cmd), ProviderIdempotencyKey(cmd));
      match outcome {
        case Ok(pi) =>
          var config: Checkout := map[];
          config := config["type" := Text("STRIPE")];
          config := config["publishableKey" := Text(pk.value)];
          config := config["clientSecret" := if pi.clientSecret.Some? then Text(pi.clientSecret.value) else Null];
          assert config == StripeCheckout(pk.value, pi.clientSecret);
          r := Ok(CreateSessionResult(pi.id, config));
        case Err(e) =>
          var err := MapStripeException(e);
          r := Err(err);
      }
    }

    /** `refund`: without the Stripe properties record it throws
        `NullPointerException`; without a secret it fails with VALIDATION;
        otherwise the refund of the intent's reference and amount is
        created and its id returned. */
    method Refund(cmd: RefundCommand) returns (r: Outcome<RefundResult>)
      modifies this
      ensures StripeRecord(props).None? ==>
                r == Err(NullPointerException) && sdkApiKey == old(sdkApiKey) && telemetry == old(telemetry)
      ensures StripeRecord(props).Some? ==>
              var secret := SecretKey(cmd.providerConfig);
              if IsNullOrBlank(secret) then
                && r == Err(ProviderException(STRIPE, VALIDATION, NOT_CONFIGURED))
                && sdkApiKey == old(sdkApiKey) && telemetry == old(telemetry)
              else
                && sdkApiKey == secret && !telemetry
                && match refundCall(secret.value, RefundParams(cmd.providerRef, cmd.amountMinor))
                   case Ok(id) => r == Ok(RefundResult(id))
                   case Err(e) => r == Err(ProviderException(STRIPE, StripeKind(e), REQUEST_FAILED))
    {
      if StripeRecord(props).None? {
        return Err(NullPointerException);
      }
      var secret := SecretKey(cmd.providerConfig);
      if IsNullOrBlank(secret) {
        return Err(ProviderException(STRIPE, VALIDATION, NOT_CONFIGURED));
      }
      sdkApiKey := secret;
      telemetry := false;
      var outcome := refundCall(sdkApiKey.value, RefundParams(cmd.providerRef, cmd.amountMinor));
      match outcome {
        case Ok(id) =>
          r := Ok(RefundResult(id));
        case Err(e) =>
          var err := MapStripeException(e);
          r := Err(err);
      }
    }
  }

  /** A session is refused for missing credentials exactly when neither the
      merchant nor the global properties supply each of the two keys. */
  lemma NotConfiguredIff(a: Adapter, cfg: Option<Config>)
    requires StripeRecord(a.props).Some?
    ensures var fallback := StripeRecord(a.props).value;
            var secretMissing := !HasValue(cfg, "secretKey") && IsNullOrBlank(fallback.secretKey);
            var publishableMissing := !HasValue(cfg, "publishableKey") && IsNullOrBlank(fallback.publishableKey);
            IsNullOrBlank(a.SecretKey(cfg)) || IsNullOrBlank(a.PublishableKey(cfg)) <==> secretMissing || publishableMissing
  {
  }
}
