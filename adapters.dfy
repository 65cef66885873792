/**
 * What the orchestrator hands a provider adapter and gets back: the
 * create-session and refund commands, their results, the provider
 * exception with its error kind and safe message, and the
 * merchant-then-global rule every adapter uses to read its credentials.
 */
module Adapters {
  import opened Wrappers
  import opened Domain
  import opened JavaString
  import opened ConfigMaps

  type Uuid = string

  datatype CreateSessionCommand = CreateSessionCommand(
    merchantId: Uuid,
    paymentIntentId: Uuid,
    amountMinor: int,
    currency: string,
    description: Option<string>,
    idempotencyKey: Option<string>,
    returnUrl: Option<string>,
    provider: Provider,
    providerConfig: Option<Config>)

  datatype CreateSessionResult = CreateSessionResult(providerRef: string, checkoutConfig: Checkout)

  datatype RefundCommand = RefundCommand(
    provider: Provider,
    merchantId: Uuid,
    providerRef: Option<string>,
    amountMinor: int,
    currency: string,
    reason: Option<string>,
    providerConfig: Option<Config>)

  datatype RefundResult = RefundResult(providerRefundRef: string)

  /** What an adapter call throws: a `ProviderException` with the provider,
      the error kind and the safe message, or the `NullPointerException` of
      reading a properties record that is absent. */
  datatype AdapterException =
    | ProviderException(provider: Provider, kind: ProviderErrorType, safeMessage: string)
    | NullPointerException

  type Outcome<T> = Result<T, AdapterException>

  /** How a WebClient exchange ends: a decoded body, an error status
      (`WebClientResponseException` with its raw status code), or any other
      exception, among them the client-side timeout. */
  datatype HttpOutcome<T> = Body(value: T) | Status(code: int) | Broken

  /** `HttpStatusCode.is5xxServerError` */
  predicate Is5xx(code: int) {
    500 <= code <= 599
  }

  /** `resolveConfigValue`: the merchant's value when it is there and not
      blank, else the global fallback, which may itself be null or blank. */
  function ResolveConfigValue(cfg: Option<Config>, key: string, fallback: Option<string>): (r: Option<string>)
    ensures HasValue(cfg, key) ==> r == Some(cfg.value[key])
    ensures !HasValue(cfg, key) ==> r == fallback
    ensures IsNullOrBlank(r) <==> !HasValue(cfg, key) && IsNullOrBlank(fallback)
  {
    if HasValue(cfg, key) then ValueOf(cfg, key) else fallback
  }

  /** Java string concatenation of a possibly null string. */
  function Concatenable(s: Option<string>): string {
    if s.None? then "null" else s.value
  }
}
