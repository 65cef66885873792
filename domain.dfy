/**
 * Enumerations and records shared by the gateway's services: providers,
 * payment and circuit states, provider error kinds, health event types,
 * routing preferences and the errors an operation can raise.
 */
module Domain {
  import opened Wrappers

  /** Every provider the code names. TRANSBANK is referenced by the routing
      preference and the availability order but absent from the provider
      enumeration; it is part of this model's enumeration. */
  datatype Provider = STRIPE | ADYEN | MASTERCARD | PAYPAL | DEMO | TRANSBANK

  /** The Java enumeration order of `PaymentProvider.values()` (TRANSBANK last). */
  const AllProviders: seq<Provider> := [STRIPE, ADYEN, MASTERCARD, PAYPAL, DEMO, TRANSBANK]

  lemma AllProvidersComplete(p: Provider)
    ensures p in AllProviders
  {
  }

  function ProviderName(p: Provider): (r: string)
    ensures r != []
  {
    match p
    case STRIPE => "STRIPE"
    case ADYEN => "ADYEN"
    case MASTERCARD => "MASTERCARD"
    case PAYPAL => "PAYPAL"
    case DEMO => "DEMO"
    case TRANSBANK => "TRANSBANK"
  }

  /** `PaymentProvider.valueOf(name)`: only an exact constant name. */
  function ProviderValueOf(name: string): (r: Option<Provider>)
    ensures r.Some? ==> ProviderName(r.value) == name
    ensures forall p :: ProviderName(p) == name ==> r == Some(p)
  {
    if name == "STRIPE" then Some(STRIPE)
    else if name == "ADYEN" then Some(ADYEN)
    else if name == "MASTERCARD" then Some(MASTERCARD)
    else if name == "PAYPAL" then Some(PAYPAL)
    else if name == "DEMO" then Some(DEMO)
    else if name == "TRANSBANK" then Some(TRANSBANK)
    else None
  }

  datatype PaymentStatus = CREATED | REQUIRES_PAYMENT_METHOD | PROCESSING | SUCCEEDED | FAILED | REFUNDED

  datatype CircuitState = CLOSED | OPEN | HALF_OPEN

  datatype ProviderErrorType = TIMEOUT | HTTP_5XX | VALIDATION | PROVIDER_DECLINE | UNKNOWN

  function ErrorTypeName(t: ProviderErrorType): string {
    match t
    case TIMEOUT => "TIMEOUT"
    case HTTP_5XX => "HTTP_5XX"
    case VALIDATION => "VALIDATION"
    case PROVIDER_DECLINE => "PROVIDER_DECLINE"
    case UNKNOWN => "UNKNOWN"
  }

  /** The routing preference of a create or reroute request. */
  datatype Preference = AUTO | PREFER_STRIPE | PREFER_ADYEN | PREFER_DEMO | PREFER_PAYPAL | PREFER_TRANSBANK

  /** `ProviderPreference.toProvider`: AUTO names no provider. */
  function ToProvider(pref: Preference): (r: Option<Provider>)
    ensures r.None? <==> pref == AUTO
    ensures r == Some(STRIPE) <==> pref == PREFER_STRIPE
    ensures r == Some(ADYEN) <==> pref == PREFER_ADYEN
    ensures r == Some(DEMO) <==> pref == PREFER_DEMO
    ensures r != Some(MASTERCARD)
  {
    match pref
    case AUTO => None
    case PREFER_STRIPE => Some(STRIPE)
    case PREFER_ADYEN => Some(ADYEN)
    case PREFER_DEMO => Some(DEMO)
    case PREFER_PAYPAL => Some(PAYPAL)
    case PREFER_TRANSBANK => Some(TRANSBANK)
  }

  /** A provider's health as the routing engine reads it. */
  datatype ProviderSnapshot = ProviderSnapshot(
    provider: Provider,
    circuitState: CircuitState,
    successRate: real,
    errorRate: real,
    p95LatencyMs: int,
    lastFailureAt: Option<Millis>,
    updatedAt: Millis)

  /** The event types written to the payment event log. */
  datatype EventType =
    | PAYMENT_SUCCEEDED
    | PAYMENT_FAILED
    | REFUND_SUCCEEDED
    | PROVIDER_CREATE_SESSION_SUCCEEDED
    | PROVIDER_CREATE_SESSION_FAILED

  /** HTTP statuses carried by the gateway's API exceptions. */
  datatype HttpStatus =
    | BAD_REQUEST
    | UNAUTHORIZED
    | NOT_FOUND
    | CONFLICT
    | UNPROCESSABLE_ENTITY
    | TOO_MANY_REQUESTS
    | INTERNAL_SERVER_ERROR
    | BAD_GATEWAY

  /** The exceptions an operation can end with. */
  datatype Failure =
    | Api(status: HttpStatus, message: string)
    | IllegalArgument(message: string)
    | IllegalState(message: string)
    | ProviderFailure(provider: Provider, kind: ProviderErrorType)
    /** Any other unchecked exception, by its Java class name. */
    | Unchecked(exception: string)

  /** A value of a checkout configuration or other string-keyed JSON-like map. */
  datatype Value = Text(text: string) | Number(number: int) | Null

  type Checkout = map<string, Value>

  /** Time is epoch milliseconds. */
  type Millis = int

  const MINUTE: int := 60000
}
