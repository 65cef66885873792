/**
 * `MastercardHostedCheckoutAdapter`: the gateway credential check, the
 * gateway base URL, the two-decimal amount, the Basic authorization header,
 * the session request, the reading of the session id and success indicator
 * out of the gateway's JSON answer, and the checkout configuration handed
 * back. The HTTP exchange is the function `sessionCall`; refunds are not
 * implemented by the adapter.
 */
module MastercardAdapter {
  import opened Wrappers
  import opened Domain
  import opened JavaString
  import opened ConfigMaps
  import opened Settings
  import opened Adapters
  import opened Fnv
  import Base64

  const NOT_CONFIGURED: string := "Mastercard is not configured"
  const REQUEST_FAILED: string := "Mastercard request failed"
  const SERVER_ERROR: string := "Mastercard 5xx"
  const RESPONSE_INVALID: string := "Mastercard session response invalid"
  const MISSING_SESSION_ID: string := "Mastercard session response missing session.id"
  const REFUND_NOT_IMPLEMENTED: string := "Mastercard refund not implemented"
  const DEFAULT_FRONTEND: string := "http://localhost:3000"

  /** `mapWebClientException`: 5xx and above a server error, 408 a timeout,
      every other status a validation error; the 504 test in the timeout
      branch is never reached. */
  function MastercardKind(status: int): (k: ProviderErrorType)
    ensures k == HTTP_5XX <==> status >= 500
    ensures k == TIMEOUT <==> status == 408
    ensures k == VALIDATION <==> status < 500 && status != 408
  {
    if status >= 500 then HTTP_5XX
    else if status == 408 || status == 504 then TIMEOUT
    else VALIDATION
  }

  /** `normalizeBaseUrl`: the trimmed host without the '/' that
      `replaceAll("/$", "")` removes (a final U+0085, U+2028 or U+2029
      survives the trim, and a '/' before it goes),
      prefixed with "https://" unless it already names http or https. */
  function NormalizeBaseUrl(gatewayHost: string): (r: string)
    ensures var raw := Trim(gatewayHost);
            StartsWith(raw, "http://") || StartsWith(raw, "https://") ==> r == StripTrailingSlash(raw)
    ensures var raw := Trim(gatewayHost);
            !(StartsWith(raw, "http://") || StartsWith(raw, "https://")) ==> StartsWith(r, "https://") && r[8..] == StripTrailingSlash(raw)
  {
    var raw := Trim(gatewayHost);
    if StartsWith(raw, "http://") || StartsWith(raw, "https://") then StripTrailingSlash(raw)
    else "https://" + StripTrailingSlash(raw)
  }

  /** A bare host gets the https scheme, and a URL that already has a scheme,
      no surrounding blanks and neither a trailing '/' nor a final line
      terminator is kept as it is. */
  lemma NormalizeExamples(host: string)
    requires Trim(host) == host && host != [] && host[|host| - 1] != '/' && !IsLineTerminator(host[|host| - 1])
    ensures StartsWith(host, "https://") ==> NormalizeBaseUrl(host) == host
    ensures !StartsWith(host, "http://") && !StartsWith(host, "https://") ==> NormalizeBaseUrl(host) == "https://" + host
  {
  }

  /** `BigDecimal.valueOf(amountMinor, 2).setScale(2, HALF_UP).toString()`:
      the sign, the whole units and exactly two decimals. */
  function FormatAmount(amountMinor: int): (r: string)
    ensures |r| >= 4 && r[|r| - 3] == '.'
    ensures r[0] == '-' <==> amountMinor < 0
  {
    var a: nat := if amountMinor < 0 then -amountMinor else amountMinor;
    (if amountMinor < 0 then "-" else "") + NatToString(a / 100) + "." + [DigitChar(a % 100 / 10), DigitChar(a % 10)]
  }

  /** Reading the digits of a formatted amount back: the units before the
      point and the two decimals after it give the amount in minor units. */
  lemma FormatAmountReadsBack(amountMinor: nat)
    ensures var r := FormatAmount(amountMinor);
            && IsDigits(r[..|r| - 3]) && IsDigits(r[|r| - 2..])
            && DigitsValue(r[..|r| - 3]) * 100 + DigitsValue(r[|r| - 2..]) == amountMinor
  {
    var r := FormatAmount(amountMinor);
    var q, m := amountMinor / 100, amountMinor % 100;
    var units := NatToString(q);
    var cents := [DigitChar(m / 10), DigitChar(amountMinor % 10)];
    assert amountMinor % 10 == m % 10;
    assert r == units + "." + cents;
    assert r[..|r| - 3] == units;
    assert r[|r| - 2..] == cents;
    NatToStringValue(q);
    CentsValue(m);
    assert q * 100 + m == amountMinor;
  }

  /** The two decimals of `m` read back as `m`. */
  lemma CentsValue(m: nat)
    requires m < 100
    ensures IsDigits([DigitChar(m / 10), DigitChar(m % 10)])
    ensures DigitsValue([DigitChar(m / 10), DigitChar(m % 10)]) == m
  {
    var cents := [DigitChar(m / 10), DigitChar(m % 10)];
    assert cents[..1] == [DigitChar(m / 10)];
    assert DigitsValue(cents[..1]) == DigitsValue(cents[..1][..0]) * 10 + (cents[0] as int - '0' as int);
    assert DigitsValue(cents) == DigitsValue(cents[..1]) * 10 + (cents[1] as int - '0' as int);
  }

  lemma Fifteen()
    ensures NatToString(15) == "15"
  {
    assert NatToString(1) == "1";
  }

  /** 1500 minor units are "15.00", and 5 are "0.05". */
  lemma FormatAmountExamples()
    ensures FormatAmount(1500) == "15.00"
    ensures FormatAmount(5) == "0.05"
  {
    Fifteen();
    assert NatToString(0) == "0";
  }

  /** A value of the gateway's JSON answer as the adapter sees it: text
      (a string, or any other scalar or array as `String.valueOf` prints
      it), null, or an object together with its printed form. */
  datatype Json = Scalar(text: string) | JNull | Object(fields: map<string, Json>, shown: string)

  /** `Map.get`: a missing key reads as null. */
  function Get(m: map<string, Json>, key: string): Json {
    if key in m then m[key] else JNull
  }

  /** `value == null ? null : String.valueOf(value)` */
  function Show(j: Json): (r: Option<string>)
    ensures r.None? <==> j.JNull?
  {
    match j
    case Scalar(t) => Some(t)
    case JNull => None
    case Object(_, shown) => Some(shown)
  }

  /** `extractSessionId`: the id inside a `session` object when there is
      one; the top-level `sessionId` only when `session` is not an object. */
  function ExtractSessionId(resp: map<string, Json>): (r: Option<string>)
    ensures Get(resp, "session").Object? ==> r == Show(Get(Get(resp, "session").fields, "id"))
    ensures !Get(resp, "session").Object? ==> r == Show(Get(resp, "sessionId"))
  {
    match Get(resp, "session")
    case Object(session, _) => Show(Get(session, "id"))
    case _ => Show(Get(resp, "sessionId"))
  }

  /** A `session` object without an id hides a top-level `sessionId`. */
  lemma SessionObjectShadowsSessionId(resp: map<string, Json>, session: map<string, Json>, shown: string, id: string)
    requires resp == map["session" := Object(session, shown), "sessionId" := Scalar(id)]
    requires "id" !in session
    ensures ExtractSessionId(resp) == None
  {
  }

  /** `extractSuccessIndicator`: the top-level `successIndicator` when it is
      not null, else the one inside a `session` object. */
  function ExtractSuccessIndicator(resp: map<string, Json>): (r: Option<string>)
    ensures !Get(resp, "successIndicator").JNull? ==> r == Show(Get(resp, "successIndicator"))
    ensures Get(resp, "successIndicator").JNull? && !Get(resp, "session").Object? ==> r.None?
  {
    var indicator := Get(resp, "successIndicator");
    if !indicator.JNull? then Show(indicator)
    else match Get(resp, "session")
      case Object(session, _) => Show(Get(session, "successIndicator"))
      case _ => None
  }

  /** The top-level indicator wins over the one in the session object. */
  lemma TopLevelIndicatorWins(top: string, nested: string, id: string, shown: string)
    ensures var resp := map["successIndicator" := Scalar(top),
                            "session" := Object(map["id" := Scalar(id), "successIndicator" := Scalar(nested)], shown)];
            ExtractSuccessIndicator(resp) == Some(top) && ExtractSessionId(resp) == Some(id)
  {
  }

  /** The return URL: the command's when it is not blank, else the frontend
      base (the local default when blank) without the '/' that
      `replaceAll("/$", "")` removes, then
      `/checkout/` and the intent id. */
  function ReturnUrl(frontendBaseUrl: Option<string>, cmd: CreateSessionCommand): (u: string)
    ensures !IsNullOrBlank(cmd.returnUrl) ==> u == cmd.returnUrl.value
    ensures IsNullOrBlank(cmd.returnUrl) && IsNullOrBlank(frontendBaseUrl)
      ==> u == DEFAULT_FRONTEND + "/checkout/" + cmd.paymentIntentId
  {
    if !IsNullOrBlank(cmd.returnUrl) then cmd.returnUrl.value
    else
      var base := if IsNullOrBlank(frontendBaseUrl) then DEFAULT_FRONTEND else frontendBaseUrl.value;
      StripTrailingSlash(base) + "/checkout/" + cmd.paymentIntentId
  }

  /** `basicAuthHeader`: "Basic " and the padded standard base64 of the
      UTF-8 bytes of user ':' password. */
  function BasicAuthHeader(user: string, password: string): (h: string)
    ensures StartsWith(h, "Basic ")
  {
    "Basic " + Base64.Encode(Base64.Standard, true, Utf8(user + ":" + password))
  }

  /** The gateway reads the credentials back out of the header. */
  lemma BasicAuthCarriesCredentials(user: string, password: string)
    ensures Base64.JdkDecode(Base64.Standard, BasicAuthHeader(user, password)[6..]) == Some(Utf8(user + ":" + password))
  {
    var token := Base64.Encode(Base64.Standard, true, Utf8(user + ":" + password));
    assert BasicAuthHeader(user, password)[6..] == token;
    Base64.JdkDecodeEncode(Base64.Standard, true, Utf8(user + ":" + password));
  }

  datatype Interaction = Interaction(operation: string, returnUrl: string)

  datatype Order = Order(id: string, amount: string, currency: string)

  /** The body of the session request. */
  datatype SessionBody = SessionBody(apiOperation: string, interaction: Interaction, order: Order)

  datatype Request = Request(baseUrl: string, path: string, headers: map<string, string>, body: SessionBody)

  /** The exchange with the gateway; a null body is `Body(None)`. */
  type SessionCall = Request -> HttpOutcome<Option<map<string, Json>>>

  /** The four gateway settings, merchant value first, then the global
      properties when they and their Mastercard record are there. */
  datatype Credentials = Credentials(gatewayHost: Option<string>, apiVersion: Option<string>, merchantId: Option<string>, apiPassword: Option<string>)

  function Resolve(props: Properties, cfg: Option<Config>): Credentials {
    var fallback := if props.None? then None else props.value.mastercard;
    Credentials(
      ResolveConfigValue(cfg, "gatewayHost", if fallback.None? then None else fallback.value.gatewayHost),
      ResolveConfigValue(cfg, "apiVersion", if fallback.None? then None else fallback.value.apiVersion),
      ResolveConfigValue(cfg, "merchantId", if fallback.None? then None else fallback.value.merchantId),
      ResolveConfigValue(cfg, "apiPassword", if fallback.None? then None else fallback.value.apiPassword))
  }

  predicate Configured(c: Credentials) {
    !IsNullOrBlank(c.gatewayHost) && !IsNullOrBlank(c.apiVersion) && !IsNullOrBlank(c.merchantId) && !IsNullOrBlank(c.apiPassword)
  }

  /** With no properties at all a merchant configuration holding the four
      settings is enough, and one missing any of them is not. */
  lemma MerchantConfigSuffices(cfg: Option<Config>)
    ensures Configured(Resolve(None, cfg))
      <==> HasValue(cfg, "gatewayHost") && HasValue(cfg, "apiVersion") && HasValue(cfg, "merchantId") && HasValue(cfg, "apiPassword")
  {
  }

  function SessionRequest(c: Credentials, frontendBaseUrl: Option<string>, cmd: CreateSessionCommand): (q: Request)
    requires Configured(c)
    ensures q.body.order == Order(cmd.paymentIntentId, FormatAmount(cmd.amountMinor), ToUpper(cmd.currency))
    ensures q.headers.Keys == {"Content-Type", "Authorization"}
  {
    Request(
      NormalizeBaseUrl(c.gatewayHost.value),
      "/api/rest/version/" + c.apiVersion.value + "/merchant/" + c.merchantId.value + "/session",
      map["Content-Type" := "application/json",
          "Authorization" := BasicAuthHeader("merchant." + c.merchantId.value, c.apiPassword.value)],
      SessionBody("CREATE_CHECKOUT_SESSION", Interaction("PURCHASE", ReturnUrl(frontendBaseUrl, cmd)),
                  Order(cmd.paymentIntentId, FormatAmount(cmd.amountMinor), ToUpper(cmd.currency))))
  }

  /** The checkout configuration of a created session; the success
      indicator is there only when it is not blank. */
  function CheckoutFields(scriptUrl: string, merchantId: string, sessionId: string, orderId: string,
                          amount: string, currency: string, returnUrl: string, indicator: Option<string>): (m: Checkout)
    ensures "successIndicator" in m <==> !IsNullOrBlank(indicator)
    ensures "sessionId" in m && m["sessionId"] == Text(sessionId)
  {
    var m: Checkout := map[];
    var m := m["type" := Text("MASTERCARD")];
    var m := m["scriptUrl" := Text(scriptUrl)];
    var m := m["merchantId" := Text(merchantId)];
    var m := m["sessionId" := Text(sessionId)];
    var m := m["orderId" := Text(orderId)];
    var m := m["amount" := Text(amount)];
    var m := m["currency" := Text(currency)];
    var m := m["returnUrl" := Text(returnUrl)];
    if IsNullOrBlank(indicator) then m else m["successIndicator" := Text(indicator.value)]
  }

  /** Besides the optional success indicator, the configuration holds the
      type, the script URL, the gateway merchant, the session, the order,
      the amount, the currency and the return URL. */
  lemma CheckoutShape(scriptUrl: string, merchantId: string, sessionId: string, orderId: string,
                      amount: string, currency: string, returnUrl: string, indicator: Option<string>)
    ensures var m := CheckoutFields(scriptUrl, merchantId, sessionId, orderId, amount, currency, returnUrl, indicator);
            m.Keys - {"successIndicator"} == {"type", "scriptUrl", "merchantId", "sessionId", "orderId", "amount", "currency", "returnUrl"}
            && m["type"] == Text("MASTERCARD")
  {
  }

  /** The gateway's checkout script for the configured API version. */
  function ScriptUrl(c: Credentials): string
    requires Configured(c)
  {
    NormalizeBaseUrl(c.gatewayHost.value) + "/checkout/version/" + c.apiVersion.value + "/checkout.js"
  }

  function MastercardCheckout(c: Credentials, frontendBaseUrl: Option<string>, cmd: CreateSessionCommand,
                              sessionId: string, indicator: Option<string>): Checkout
    requires Configured(c)
  {
    CheckoutFields(ScriptUrl(c), c.merchantId.value, sessionId, cmd.paymentIntentId,
                   FormatAmount(cmd.amountMinor), ToUpper(cmd.currency), ReturnUrl(frontendBaseUrl, cmd), indicator)
  }

  /** `createSession`. The return URL is first the command's and replaced
      by the default when blank; the checkout map is filled entry by entry. */
  method CreateSession(props: Properties, frontendBaseUrl: Option<string>, sessionCall: SessionCall,
                       cmd: CreateSessionCommand)
    returns (r: Outcome<CreateSessionResult>)
    ensures var c := Resolve(props, cmd.providerConfig);
            !Configured(c) ==> r == Err(ProviderException(MASTERCARD, VALIDATION, NOT_CONFIGURED))
    ensures var c := Resolve(props, cmd.providerConfig);
            Configured(c) ==>
              match sessionCall(SessionRequest(c, frontendBaseUrl, cmd))
              case Status(code) =>
                r == Err(ProviderException(MASTERCARD, if Is5xx(code) then HTTP_5XX else MastercardKind(code),
                                           if Is5xx(code) then SERVER_ERROR else REQUEST_FAILED))
              case Broken => r == Err(ProviderException(MASTERCARD, UNKNOWN, REQUEST_FAILED))
              case Body(None) => r == Err(ProviderException(MASTERCARD, UNKNOWN, RESPONSE_INVALID))
              case Body(Some(resp)) =>
                var id := ExtractSessionId(resp);
                if IsNullOrBlank(id) then r == Err(ProviderException(MASTERCARD, UNKNOWN, MISSING_SESSION_ID))
                else r == Ok(CreateSessionResult(id.value,
                               MastercardCheckout(c, frontendBaseUrl, cmd, id.value, ExtractSuccessIndicator(resp))))
  {
    var c := Resolve(props, cmd.providerConfig);
    if !Configured(c) {
      return Err(ProviderException(MASTERCARD, VALIDATION, NOT_CONFIGURED));
    }
    var baseUrl := NormalizeBaseUrl(c.gatewayHost.value);
    var returnUrl := if cmd.returnUrl.Some? then cmd.returnUrl.value else "";
    if IsNullOrBlank(cmd.returnUrl) {
      var baseFrontend := if IsNullOrBlank(frontendBaseUrl) then DEFAULT_FRONTEND else frontendBaseUrl.value;
      returnUrl := StripTrailingSlash(baseFrontend) + "/checkout/" + cmd.paymentIntentId;
    }
    assert returnUrl == ReturnUrl(frontendBaseUrl, cmd);
    var o := sessionCall(SessionRequest(c, frontendBaseUrl, cmd));
    match o {
      case Status(code) =>
        if Is5xx(code) {
          r := Err(ProviderException(MASTERCARD, HTTP_5XX, SERVER_ERROR));
        } else {
          r := Err(ProviderException(MASTERCARD, MastercardKind(code), REQUEST_FAILED));
        }
      case Broken =>
        r := Err(ProviderException(MASTERCARD, UNKNOWN, REQUEST_FAILED));
      case Body(body) =>
        if body.None? {
          return Err(ProviderException(MASTERCARD, UNKNOWN, RESPONSE_INVALID));
        }
        var sessionId := ExtractSessionId(body.value);
        if IsNullOrBlank(sessionId) {
          return Err(ProviderException(MASTERCARD, UNKNOWN, MISSING_SESSION_ID));
        }
        var indicator := ExtractSuccessIndicator(body.value);
        var scriptUrl := baseUrl + "/checkout/version/" + c.apiVersion.value + "/checkout.js";
        var amount := FormatAmount(cmd.amountMinor);
        var currency := ToUpper(cmd.currency);
        assert scriptUrl == ScriptUrl(c);
        var config := FillCheckout(scriptUrl, c.merchantId.value, sessionId.value, cmd.paymentIntentId,
                                   amount, currency, returnUrl, indicator);
        r := Ok(CreateSessionResult(sessionId.value, config));
    }
  }

  /** The checkout map of `createSession`, filled entry by entry. */
  method FillCheckout(scriptUrl: string, merchantId: string, sessionId: string, orderId: string,
                      amount: string, currency: string, returnUrl: string, indicator: Option<string>)
    returns (config: Checkout)
    ensures config == CheckoutFields(scriptUrl, merchantId, sessionId, orderId, amount, currency, returnUrl, indicator)
  {
    config := map[];
    config := config["type" := Text("MASTERCARD")];
    config := config["scriptUrl" := Text(scriptUrl)];
    config := config["merchantId" := Text(merchantId)];
    config := config["sessionId" := Text(sessionId)];
    config := config["orderId" := Text(orderId)];
    config := config["amount" := Text(amount)];
    config := config["currency" := Text(currency)];
    config := config["returnUrl" := Text(returnUrl)];
    if !IsNullOrBlank(indicator) {
      config := config["successIndicator" := Text(indicator.value)];
    }
  }

  /** `refund`: always refused. */
  function Refund(cmd: RefundCommand): (r: Outcome<RefundResult>)
    ensures r.Err? && r.error.ProviderException? && r.error.provider == MASTERCARD && r.error.kind == VALIDATION
  {
    Err(ProviderException(MASTERCARD, VALIDATION, REFUND_NOT_IMPLEMENTED))
  }
}
