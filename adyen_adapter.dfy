/**
 * `AdyenAdapter`: the credential check, the Checkout API session and
 * refund requests, the `Idempotency-Key` header, the session shape handed
 * back, the refund's PSP-reference guard and the classification of error
 * statuses. The HTTP exchanges are the functions `sessionCall` and
 * `refundCall`.
 */
module AdyenAdapter {
  import opened Wrappers
  import opened Domain
  import opened JavaString
  import opened ConfigMaps
  import opened Settings
  import opened Adapters

  const CHECKOUT_API_VERSION: string := "v71"
  const NOT_CONFIGURED: string := "Adyen is not configured"
  const REQUEST_FAILED: string := "Adyen request failed"
  const SERVER_ERROR: string := "Adyen 5xx"
  const RESPONSE_INVALID: string := "Adyen session response invalid"
  const NEEDS_PSP_REFERENCE: string := "Adyen refund requires PSP reference (wait for webhook)"
  const REFUND_FAILED: string := "Adyen refund request failed"

  datatype Amount = Amount(value: int, currency: string)

  /** The body of `POST /v71/sessions`. */
  datatype SessionBody = SessionBody(merchantAccount: string, reference: string, returnUrl: string, channel: string, amount: Amount)

  /** The body of `POST /v71/payments/{ref}/refunds`. */
  datatype RefundBody = RefundBody(merchantAccount: string, reference: string, amount: Amount)

  datatype Request<B> = Request(path: string, headers: map<string, string>, body: B)

  /** The two fields of the session response the adapter reads; either may be null. */
  datatype SessionResponse = SessionResponse(id: Option<string>, sessionData: Option<string>)

  /** The session exchange; a null body is `Body(None)`. */
  type SessionCall = Request<SessionBody> -> HttpOutcome<Option<SessionResponse>>

  /** The refund exchange, whose body is read as a JSON map. */
  type RefundCall = Request<RefundBody> -> HttpOutcome<Option<map<string, Value>>>

  /** `mapWebClientException`: 5xx and above a server error, 408 a timeout,
      every other status a validation error. The test for 504 in the
      timeout branch comes after `status >= 500` and never decides. */
  function AdyenKind(status: int): (k: ProviderErrorType)
    ensures k == HTTP_5XX <==> status >= 500
    ensures k == TIMEOUT <==> status == 408
    ensures k == VALIDATION <==> status < 500 && status != 408
  {
    if status >= 500 then HTTP_5XX
    else if status == 408 || status == 504 then TIMEOUT
    else VALIDATION
  }

  /** A gateway timeout (504) is reported as a server error. */
  lemma GatewayTimeoutIsServerError()
    ensures AdyenKind(504) == HTTP_5XX
  {
  }

  /** The client's idempotency key as the `Idempotency-Key` header value,
      only when the key is not blank. */
  function IdempotencyHeader(cmd: CreateSessionCommand): (h: Option<string>)
    ensures h.None? <==> IsNullOrBlank(cmd.idempotencyKey)
    ensures h.Some? ==> h.value == "po:" + cmd.merchantId + ":" + cmd.idempotencyKey.value
  {
    if IsNullOrBlank(cmd.idempotencyKey) then None
    else Some("po:" + cmd.merchantId + ":" + cmd.idempotencyKey.value)
  }

  /** The headers of an exchange: the content type and the API key, and the
      idempotency header when there is one. */
  function Headers(apiKey: string, idempotency: Option<string>): (h: map<string, string>)
    ensures h.Keys == {"Content-Type", "X-API-Key"} + (if idempotency.Some? then {"Idempotency-Key"} else {})
    ensures h["X-API-Key"] == apiKey
    ensures idempotency.Some? ==> h["Idempotency-Key"] == idempotency.value
  {
    var base := map["Content-Type" := "application/json", "X-API-Key" := apiKey];
    if idempotency.Some? then base["Idempotency-Key" := idempotency.value] else base
  }

  /** The return URL: the command's when it is not blank, else the frontend
      base URL (as Java concatenates it, "null" included) plus
      `/checkout/` and the intent id. */
  function ReturnUrl(frontendBaseUrl: Option<string>, cmd: CreateSessionCommand): (u: string)
    ensures !IsNullOrBlank(cmd.returnUrl) ==> u == cmd.returnUrl.value
    ensures IsNullOrBlank(cmd.returnUrl) ==> EndsWith(u, "/checkout/" + cmd.paymentIntentId)
  {
    if !IsNullOrBlank(cmd.returnUrl) then cmd.returnUrl.value
    else
      var u := Concatenable(frontendBaseUrl) + "/checkout/" + cmd.paymentIntentId;
      assert u[|u| - |"/checkout/" + cmd.paymentIntentId|..] == "/checkout/" + cmd.paymentIntentId;
      u
  }

  /** The session request of a configured adapter. */
  function SessionRequest(apiKey: string, merchantAccount: string, frontendBaseUrl: Option<string>, cmd: CreateSessionCommand)
    : (q: Request<SessionBody>)
    ensures q.body.amount == Amount(cmd.amountMinor, ToUpper(cmd.currency))
    ensures q.body.reference == cmd.paymentIntentId && q.body.merchantAccount == merchantAccount
  {
    Request("/" + CHECKOUT_API_VERSION + "/sessions",
      Headers(apiKey, IdempotencyHeader(cmd)),
      SessionBody(merchantAccount, cmd.paymentIntentId, ReturnUrl(frontendBaseUrl, cmd), "Web",
                  Amount(cmd.amountMinor, ToUpper(cmd.currency))))
  }

  /** The checkout configuration of a created session. */
  function AdyenCheckout(clientKey: string, environment: Option<string>, sessionId: string, sessionData: string): Checkout {
    map["type" := Text("ADYEN"),
        "clientKey" := Text(clientKey),
        "environment" := if environment.Some? then Text(environment.value) else Null,
        "sessionId" := Text(sessionId),
        "sessionData" := Text(sessionData)]
  }

  lemma AdyenCheckoutShape(clientKey: string, environment: Option<string>, sessionId: string, sessionData: string)
    ensures AdyenCheckout(clientKey, environment, sessionId, sessionData).Keys
      == {"type", "clientKey", "environment", "sessionId", "sessionData"}
    ensures AdyenCheckout(clientKey, environment, sessionId, sessionData)["type"] == Text("ADYEN")
    ensures AdyenCheckout(clientKey, environment, sessionId, sessionData)["sessionId"] == Text(sessionId)
  {
  }

  /** The credentials `createSession` resolves, merchant value first. */
  datatype Credentials = Credentials(apiKey: Option<string>, merchantAccount: Option<string>, clientKey: Option<string>, environment: Option<string>)

  function Resolve(fallback: AdyenProperties, cfg: Option<Config>): Credentials {
    Credentials(
      ResolveConfigValue(cfg, "apiKey", fallback.apiKey),
      ResolveConfigValue(cfg, "merchantAccount", fallback.merchantAccount),
      ResolveConfigValue(cfg, "clientKey", fallback.clientKey),
      ResolveConfigValue(cfg, "environment", fallback.environment))
  }

  /** A session needs an API key, a merchant account and a client key; the
      environment may be missing. */
  predicate SessionConfigured(c: Credentials) {
    !IsNullOrBlank(c.apiKey) && !IsNullOrBlank(c.merchantAccount) && !IsNullOrBlank(c.clientKey)
  }

  /** How a failed session exchange surfaces: a 5xx as the adapter's own
      server error, another error status by `mapWebClientException`, and
      anything else as UNKNOWN. */
  function SessionFailure(o: HttpOutcome<Option<SessionResponse>>): (e: AdapterException)
    requires !o.Body?
    ensures e.ProviderException? && e.provider == ADYEN
    ensures e.kind == TIMEOUT <==> o == Status(408)
  {
    match o
    case Status(code) =>
      if Is5xx(code) then ProviderException(ADYEN, HTTP_5XX, SERVER_ERROR)
      else ProviderException(ADYEN, AdyenKind(code), REQUEST_FAILED)
    case Broken => ProviderException(ADYEN, UNKNOWN, REQUEST_FAILED)
  }

  /** `createSession`. Reading the global credentials through an absent
      `adyen` record, or building the return URL from an absent `frontend`
      record, throws `NullPointerException`. The checkout map is filled one
      entry at a time. */
  method CreateSession(props: Properties, frontend: Frontend, sessionCall: SessionCall,
                       cmd: CreateSessionCommand)
    returns (r: Outcome<CreateSessionResult>)
    ensures AdyenRecord(props).None? ==> r == Err(NullPointerException)
    ensures AdyenRecord(props).Some? ==>
            var c := Resolve(AdyenRecord(props).value, cmd.providerConfig);
            !SessionConfigured(c) ==> r == Err(ProviderException(ADYEN, VALIDATION, NOT_CONFIGURED))
    ensures AdyenRecord(props).Some? ==>
            var c := Resolve(AdyenRecord(props).value, cmd.providerConfig);
            SessionConfigured(c) && IsNullOrBlank(cmd.returnUrl) && frontend.None? ==> r == Err(NullPointerException)
    ensures AdyenRecord(props).Some? ==>
            var c := Resolve(AdyenRecord(props).value, cmd.providerConfig);
            SessionConfigured(c) && (!IsNullOrBlank(cmd.returnUrl) || frontend.Some?) ==>
              var o := sessionCall(SessionRequest(c.apiKey.value, c.merchantAccount.value, BaseUrlOf(frontend), cmd));
              match o
              case Body(Some(SessionResponse(Some(id), Some(data)))) =>
                r == Ok(CreateSessionResult(id, AdyenCheckout(c.clientKey.value, c.environment, id, data)))
              case Body(_) => r == Err(ProviderException(ADYEN, UNKNOWN, RESPONSE_INVALID))
              case _ => r == Err(SessionFailure(o))
  {
    var fallback := AdyenRecord(props);
    if fallback.None? {
      return Err(NullPointerException);
    }
    var c := Resolve(fallback.value, cmd.providerConfig);
    if !SessionConfigured(c) {
      return Err(ProviderException(ADYEN, VALIDATION, NOT_CONFIGURED));
    }
    if IsNullOrBlank(cmd.returnUrl) && frontend.None? {
      return Err(NullPointerException);
    }
    var o := sessionCall(SessionRequest(c.apiKey.value, c.merchantAccount.value, BaseUrlOf(frontend), cmd));
    if !o.Body? {
      return Err(SessionFailure(o));
    }
    if o.value.None? || o.value.value.id.None? || o.value.value.sessionData.None? {
      return Err(ProviderException(ADYEN, UNKNOWN, RESPONSE_INVALID));
    }
    var id := o.value.value.id.value;
    var data := o.value.value.sessionData.value;
    var config: Checkout := map[];
    config := config["type" := Text("ADYEN")];
    config := config["clientKey" := Text(c.clientKey.value)];
    config := config["environment" := if c.environment.Some? then Text(c.environment.value) else Null];
    config := config["sessionId" := Text(id)];
    config := config["sessionData" := Text(data)];
    assert config == AdyenCheckout(c.clientKey.value, c.environment, id, data);
    r := Ok(CreateSessionResult(id, config));
  }

  /** The refund's reference: a PSP reference, not a checkout-session id
      (which starts with "CS"). */
  predicate PspReference(ref: Option<string>) {
    ref.Some? && !StartsWith(ref.value, "CS")
  }

  function RefundRequest(apiKey: string, merchantAccount: string, cmd: RefundCommand): (q: Request<RefundBody>)
    requires PspReference(cmd.providerRef)
    ensures q.body.reference == "refund-" + cmd.providerRef.value
    ensures q.body.amount == Amount(cmd.amountMinor, ToUpper(cmd.currency))
    ensures q.headers.Keys == {"Content-Type", "X-API-Key"}
  {
    Request("/" + CHECKOUT_API_VERSION + "/payments/" + cmd.providerRef.value + "/refunds",
      Headers(apiKey, None),
      RefundBody(merchantAccount, "refund-" + cmd.providerRef.value, Amount(cmd.amountMinor, ToUpper(cmd.currency))))
  }

  /** The refund id in a response body: the `pspReference` string, or
      "UNKNOWN" for a null body or a missing or null field; a field of
      another type fails the cast. */
  function RefundRef(body: Option<map<string, Value>>): (r: Option<string>)
    ensures r.None? <==> body.Some? && "pspReference" in body.value && body.value["pspReference"].Number?
  {
    if body.None? || "pspReference" !in body.value then Some("UNKNOWN")
    else match body.value["pspReference"]
      case Text(s) => Some(s)
      case Null => Some("UNKNOWN")
      case Number(_) => None
  }

  /** `refund`: an absent `adyen` record throws `NullPointerException`
      before the credentials are checked. */
  function Refund(props: Properties, refundCall: RefundCall, cmd: RefundCommand): (r: Outcome<RefundResult>)
    ensures AdyenRecord(props).None? ==> r == Err(NullPointerException)
    ensures AdyenRecord(props).Some? ==>
            var fallback := AdyenRecord(props).value;
            var apiKey := ResolveConfigValue(cmd.providerConfig, "apiKey", fallback.apiKey);
            var account := ResolveConfigValue(cmd.providerConfig, "merchantAccount", fallback.merchantAccount);
            (IsNullOrBlank(apiKey) || IsNullOrBlank(account) ==> r == Err(ProviderException(ADYEN, VALIDATION, NOT_CONFIGURED)))
            && (!IsNullOrBlank(apiKey) && !IsNullOrBlank(account) && !PspReference(cmd.providerRef)
                ==> r == Err(ProviderException(ADYEN, VALIDATION, NEEDS_PSP_REFERENCE)))
    ensures r.Ok? ==> PspReference(cmd.providerRef)
    ensures r.Err? && AdyenRecord(props).Some? ==> r.error.ProviderException? && r.error.provider == ADYEN
  {
    if AdyenRecord(props).None? then Err(NullPointerException)
    else
    var fallback := AdyenRecord(props).value;
    var apiKey := ResolveConfigValue(cmd.providerConfig, "apiKey", fallback.apiKey);
    var account := ResolveConfigValue(cmd.providerConfig, "merchantAccount", fallback.merchantAccount);
    if IsNullOrBlank(apiKey) || IsNullOrBlank(account) then Err(ProviderException(ADYEN, VALIDATION, NOT_CONFIGURED))
    else if !PspReference(cmd.providerRef) then Err(ProviderException(ADYEN, VALIDATION, NEEDS_PSP_REFERENCE))
    else match refundCall(RefundRequest(apiKey.value, account.value, cmd))
      case Body(body) =>
        var ref := RefundRef(body);
        if ref.Some? then Ok(RefundResult(ref.value)) else Err(ProviderException(ADYEN, UNKNOWN, REFUND_FAILED))
      case Status(code) => Err(ProviderException(ADYEN, AdyenKind(code), REQUEST_FAILED))
      case Broken => Err(ProviderException(ADYEN, UNKNOWN, REFUND_FAILED))
  }

  /** A reference that is still the checkout-session id is refused before
      any exchange, whatever the exchange would answer. */
  lemma SessionIdRefundRefused(props: Properties, c1: RefundCall, c2: RefundCall, cmd: RefundCommand)
    requires !PspReference(cmd.providerRef)
    ensures Refund(props, c1, cmd) == Refund(props, c2, cmd)
    ensures Refund(props, c1, cmd).Err?
    ensures AdyenRecord(props).Some? ==>
              Refund(props, c1, cmd).error.ProviderException? && Refund(props, c1, cmd).error.kind == VALIDATION
  {
  }
}
