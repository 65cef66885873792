/**
 * The application properties the core reads: the provider credentials
 * (`app.providers`) and the frontend base URL (`app.frontend`). Any record
 * or value may be absent; reading a value through an absent record is a
 * `NullPointerException` wherever the code does not test the record first.
 */
module Settings {
  import opened Wrappers

  datatype StripeProperties = StripeProperties(
    secretKey: Option<string>,
    publishableKey: Option<string>,
    webhookSecret: Option<string>)

  datatype AdyenProperties = AdyenProperties(
    apiKey: Option<string>,
    merchantAccount: Option<string>,
    clientKey: Option<string>,
    hmacKey: Option<string>,
    environment: Option<string>)

  datatype MastercardProperties = MastercardProperties(
    gatewayHost: Option<string>,
    apiVersion: Option<string>,
    merchantId: Option<string>,
    apiPassword: Option<string>)

  datatype ProvidersProperties = ProvidersProperties(
    stripe: Option<StripeProperties>,
    adyen: Option<AdyenProperties>,
    mastercard: Option<MastercardProperties>)

  /** `AppProperties.providers()`, possibly absent. */
  type Properties = Option<ProvidersProperties>

  datatype FrontendProperties = FrontendProperties(baseUrl: Option<string>)

  /** `AppProperties.frontend()`, possibly absent. */
  type Frontend = Option<FrontendProperties>

  /** `properties.frontend() == null ? null : properties.frontend().baseUrl()` */
  function BaseUrlOf(frontend: Frontend): Option<string> {
    if frontend.None? then None else frontend.value.baseUrl
  }

  /** `properties.providers().stripe()` when both records are there. */
  function StripeRecord(props: Properties): Option<StripeProperties> {
    if props.None? then None else props.value.stripe
  }

  /** `properties.providers().adyen()` when both records are there. */
  function AdyenRecord(props: Properties): Option<AdyenProperties> {
    if props.None? then None else props.value.adyen
  }
}
