/**
 * `DemoAdapter`: the provider that needs no credentials. A session is the
 * intent's own id with a link to the demo checkout page, and a refund
 * always succeeds.
 */
module DemoAdapter {
  import opened Wrappers
  import opened Domain
  import opened JavaString
  import opened Settings
  import opened Adapters
  import opened Queries

  const DEFAULT_FRONTEND: string := "http://localhost:3000"
  const DEMO_MESSAGE: string := "Demo mode active. No external provider configured."

  /** `demoCheckoutUrl`: the frontend base (the local default when blank)
      without the '/' that `replaceAll("/$", "")` removes, then `/demo-checkout/` and the intent id. */
  function DemoCheckoutUrl(frontendBaseUrl: Option<string>, paymentIntentId: string): (u: string)
    ensures EndsWith(u, "/demo-checkout/" + paymentIntentId)
    ensures IsNullOrBlank(frontendBaseUrl) ==> u == DEFAULT_FRONTEND + "/demo-checkout/" + paymentIntentId
  {
    var base := if IsNullOrBlank(frontendBaseUrl) then DEFAULT_FRONTEND else frontendBaseUrl.value;
    var u := StripTrailingSlash(base) + "/demo-checkout/" + paymentIntentId;
    assert u[|u| - |"/demo-checkout/" + paymentIntentId|..] == "/demo-checkout/" + paymentIntentId;
    u
  }

  /** A base URL with or without its trailing '/' gives the same link,
      for a base that does not end in a line terminator. */
  lemma TrailingSlashIgnored(base: string, paymentIntentId: string)
    requires !IsBlank(base) && (base == [] || (base[|base| - 1] != '/' && !IsLineTerminator(base[|base| - 1])))
    ensures DemoCheckoutUrl(Some(base + "/"), paymentIntentId) == DemoCheckoutUrl(Some(base), paymentIntentId)
  {
    BlankConcat(base, "/");
    var slashed := base + "/";
    assert slashed[|slashed| - 1] == '/';
    assert StripTrailingSlash(slashed) == base by {
      assert StripTrailingSlash(slashed) + "/" == slashed;
      assert StripTrailingSlash(slashed) == slashed[..|base|];
      assert slashed[..|base|] == base;
    }
    assert StripTrailingSlash(base) == base;
  }

  /** A '/' just before a final line feed is dropped as well, because
      `$` also matches before the line feed. */
  lemma SlashBeforeLineFeedDropped(paymentIntentId: string)
    ensures DemoCheckoutUrl(Some("http://localhost:3000/\n"), paymentIntentId)
         == "http://localhost:3000\n/demo-checkout/" + paymentIntentId
  {
    SlashBeforeLineFeed("http://localhost:3000");
  }

  /** `createSession`: the reference is "demo_" and the intent id, and the
      configuration describes the payment and links to the demo page; the
      link reads `properties.frontend().baseUrl()`, so an absent `frontend`
      record throws `NullPointerException`. */
  function CreateSession(frontend: Frontend, cmd: CreateSessionCommand): (r: Outcome<CreateSessionResult>)
    ensures r.Err? <==> frontend.None?
    ensures r.Err? ==> r.error == NullPointerException
    ensures r.Ok? ==> r.value.providerRef == "demo_" + cmd.paymentIntentId
    ensures r.Ok? ==> r.value.checkoutConfig.Keys == {"type", "paymentIntentId", "amountMinor", "currency", "message", "checkoutUrl"}
    ensures r.Ok? ==> r.value.checkoutConfig["type"] == Text("DEMO") && r.value.checkoutConfig["amountMinor"] == Number(cmd.amountMinor)
    ensures r.Ok? ==> r.value.checkoutConfig["checkoutUrl"] == Text(DemoCheckoutUrl(frontend.value.baseUrl, cmd.paymentIntentId))
  {
    if frontend.None? then Err(NullPointerException)
    else
    var frontendBaseUrl := frontend.value.baseUrl;
    Ok(CreateSessionResult(
      "demo_" + cmd.paymentIntentId,
      map["type" := Text("DEMO"),
          "paymentIntentId" := Text(cmd.paymentIntentId),
          "amountMinor" := Number(cmd.amountMinor),
          "currency" := Text(cmd.currency),
          "message" := Text(DEMO_MESSAGE),
          "checkoutUrl" := Text(DemoCheckoutUrl(frontendBaseUrl, cmd.paymentIntentId))]))
  }

  /** Distinct intents get distinct demo references. */
  lemma DemoRefInjective(frontend: Frontend, c1: CreateSessionCommand, c2: CreateSessionCommand)
    requires CreateSession(frontend, c1).Ok? && CreateSession(frontend, c2).Ok?
    requires CreateSession(frontend, c1).value.providerRef == CreateSession(frontend, c2).value.providerRef
    ensures c1.paymentIntentId == c2.paymentIntentId
  {
    PrefixCancels("demo_", c1.paymentIntentId, c2.paymentIntentId);
  }

  /** `refund`: "demo_refund_" and the provider reference, or "unknown"
      when there is none. */
  function Refund(cmd: RefundCommand): (r: Outcome<RefundResult>)
    ensures r.Ok?
    ensures cmd.providerRef.Some? ==> r.value.providerRefundRef == "demo_refund_" + cmd.providerRef.value
    ensures cmd.providerRef.None? ==> r.value.providerRefundRef == "demo_refund_unknown"
  {
    Ok(RefundResult("demo_refund_" + (if cmd.providerRef.None? then "unknown" else cmd.providerRef.value)))
  }
}
