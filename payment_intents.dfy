/**
 * `PaymentIntentService`: creating a payment intent (honouring the
 * client's idempotency key), rerouting a failed or unpaid one, refunds, and
 * the demo-mode authorize and cancel.
 *
 * Creating an intent routes it, saves it, saves its routing decision,
 * points the intent at that decision, and opens a checkout session with
 * the chosen provider. A timeout, 5xx or validation failure of that call
 * falls back once: the failed provider is excluded, the engine routes
 * again, a second decision is saved and the session is retried.
 *
 * The collaborators the service calls (availability, the routing engine,
 * the merchant's provider configurations, the adapters, the JSON writer
 * and the digest) are the functions of an `Env`. The values it draws from
 * UUID generation, the clock and the nanosecond timer are the fields of a
 * `Draws`. `idempotencyKey` arguments are the `Idempotency-Key` header as
 * the controller passes it, possibly null.
 */
module PaymentIntents {
  import opened Wrappers
  import opened Domain
  import opened JavaString
  import opened ConfigMaps
  import opened Fnv
  import opened Sha256
  import opened EventRepository
  import opened IntentRepository
  import DecisionRepository
  import opened Availability
  import opened Health
  import opened Adapters
  import opened Queries

  const IDEMPOTENCY_ENDPOINT: string := "/api/payment-intents"
  const MAX_ATTEMPTS_PER_ROOT: nat := 3
  const DEMO_MODE: string := "DEMO_MODE"
  const INSTANT_FALLBACK: string := "INSTANT_FALLBACK"
  /** The key under which `createSessionFor` hands the measured latency over. */
  const LATENCY_KEY: string := "_latencyMs"
  const PROVIDER_FAILED: string := "Provider failed creating checkout session"
  const BOTH_FAILED: string := "Both providers failed creating checkout session"

  const MERCHANT_NOT_FOUND: Failure := Api(NOT_FOUND, "Merchant not found")
  const INTENT_NOT_FOUND: Failure := Api(NOT_FOUND, "PaymentIntent not found")
  const REPLAY_MISSING: Failure := Api(CONFLICT, "Idempotency record found but payment intent missing")
  const CONFIG_MISSING: Failure := Api(CONFLICT, "Checkout config missing")
  const REROUTE_REFUSED: Failure := Api(CONFLICT, "Reroute allowed only for FAILED or REQUIRES_PAYMENT_METHOD")
  const TOO_MANY_ATTEMPTS: Failure := Api(TOO_MANY_REQUESTS, "Max reroute attempts reached")
  const REFUND_REFUSED: Failure := Api(CONFLICT, "Refund allowed only for SUCCEEDED")
  const NOT_DEMO: Failure := Api(CONFLICT, "Demo operations require provider=DEMO")

  type Decision = DecisionRepository.RoutingDecision

  /** `CreatePaymentIntentCommand`; the currency is required upstream. */
  datatype CreateCommand = CreateCommand(
    amountMinor: int,
    currency: string,
    description: Option<string>,
    preference: Option<Preference>)

  /** `RoutingEngine.RoutingResult` as the service uses it: the provider,
      the reason code and the candidate scores already written as JSON. */
  datatype Routed = Routed(provider: Provider, reasonCode: string, scoresJson: string)

  /** The collaborators, as functions of what the service passes them.
      `status` is `getStatus` (null for an unknown provider), `available`
      is `availableProviders`, `decide` is the routing engine (which may
      raise), `providerConfig` is the merchant's stored configuration of a
      provider, and `createSession` and `refund` are the registered
      adapter's calls; a `ProviderFailure` is a `ProviderException`, any
      other failure is another runtime exception (among them the
      registry's refusal of an unregistered provider). */
  datatype Env = Env(
    merchants: set<string>,
    status: (string, Provider) -> Option<ProviderStatus>,
    available: (string, set<Provider>) -> seq<Provider>,
    decide: (string, string, int, string, Preference, set<Provider>) -> Result<Routed, Failure>,
    providerConfig: (string, Provider) -> Option<Config>,
    createSession: CreateSessionCommand -> Result<CreateSessionResult, Failure>,
    refund: RefundCommand -> Result<RefundResult, Failure>,
    writeJson: (int, string, string, string) -> string,
    digest: seq<byte> -> seq<byte>)

  /** The values one create or reroute draws: the new intent id, the ids
      the database gives the first and the fallback decision, the latency
      of each session call in ms, the demo routing's score JSON (which
      carries the current instant), and the current time. */
  datatype Draws = Draws(
    intentId: string,
    decisionId: string,
    fallbackDecisionId: string,
    latencyMs: int,
    fallbackLatencyMs: int,
    demoScoresJson: string,
    now: Millis)

  /** `PaymentIntentCreated`: the intent and its checkout configuration. */
  datatype Created = Created(intent: PaymentIntent, checkoutConfig: Checkout)

  // ---------------------------------------------------------------------
  // Routing source

  /** `demoRoutingResult` */
  function DemoRouting(scoresJson: string): (r: Routed)
    ensures r.provider == DEMO && r.reasonCode == DEMO_MODE
  {
    Routed(DEMO, DEMO_MODE, scoresJson)
  }

  /** An explicitly preferred provider is usable only with a status that
      says it is available. */
  predicate ExplicitUnavailable(status: Option<ProviderStatus>) {
    status.None? || !Available(status.value)
  }

  function UnavailableError(p: Provider, status: Option<ProviderStatus>): Failure {
    Api(UNPROCESSABLE_ENTITY,
        "Provider " + ProviderName(p) + " not available ("
        + (if status.None? then "NOT_AVAILABLE" else status.value.reason) + ")")
  }

  /** How `createInternal` picks its routing: DEMO for a DEMO preference;
      otherwise an explicit preference must be available, and then no
      available candidate means DEMO and anything else the engine. */
  function RouteFor(env: Env, merchantId: string, intentId: string, amountMinor: int, currency: string,
                    preference: Preference, excluded: set<Provider>, demoJson: string): (r: Result<Routed, Failure>)
    ensures preference == PREFER_DEMO ==> r == Ok(DemoRouting(demoJson))
    ensures preference != PREFER_DEMO && preference != AUTO
            && ExplicitUnavailable(env.status(merchantId, ToProvider(preference).value))
            ==> r == Err(UnavailableError(ToProvider(preference).value, env.status(merchantId, ToProvider(preference).value)))
  {
    if preference == PREFER_DEMO then Ok(DemoRouting(demoJson))
    else if preference != AUTO && ExplicitUnavailable(env.status(merchantId, ToProvider(preference).value)) then
      var explicit := ToProvider(preference).value;
      Err(UnavailableError(explicit, env.status(merchantId, explicit)))
    else if env.available(merchantId, excluded) == [] then Ok(DemoRouting(demoJson))
    else env.decide(merchantId, intentId, amountMinor, currency, preference, excluded)
  }

  // ---------------------------------------------------------------------
  // One session attempt

  /** `resolveProviderConfig`: the merchant's stored configuration, or an
      empty map. */
  function ProviderConfigOf(env: Env, merchantId: string, p: Provider): Config {
    var c := env.providerConfig(merchantId, p);
    if c.None? then map[] else c.value
  }

  /** The command `createSessionFor` sends: the intent's fields, the
      request's idempotency key, no return URL, and the resolved
      configuration. */
  function SessionCommand(env: Env, pi: PaymentIntent, idempotencyKey: Option<string>): CreateSessionCommand {
    CreateSessionCommand(pi.merchantId, pi.id, pi.amountMinor, pi.currency, pi.description, idempotencyKey,
                         None, pi.provider, Some(ProviderConfigOf(env, pi.merchantId, pi.provider)))
  }

  /** `createSessionFor`: the adapter's result with the latency added to a
      copy of its configuration, or the adapter's exception. */
  function SessionFor(env: Env, pi: PaymentIntent, idempotencyKey: Option<string>, latencyMs: int)
    : (r: Result<CreateSessionResult, Failure>)
    ensures var a := env.createSession(SessionCommand(env, pi, idempotencyKey));
            && (a.Err? <==> r.Err?)
            && (a.Err? ==> r.error == a.error)
            && (a.Ok? ==> r.value.providerRef == a.value.providerRef
                          && r.value.checkoutConfig == a.value.checkoutConfig[LATENCY_KEY := Number(latencyMs)])
  {
    match env.createSession(SessionCommand(env, pi, idempotencyKey))
    case Ok(res) => Ok(CreateSessionResult(res.providerRef, res.checkoutConfig[LATENCY_KEY := Number(latencyMs)]))
    case Err(f) => Err(f)
  }

  /** The latency read back from a session's configuration. */
  function LatencyOf(config: Checkout): int {
    if LATENCY_KEY in config && config[LATENCY_KEY].Number? then config[LATENCY_KEY].number else 0
  }

  /** The latency `createSessionFor` measured is the one recorded. */
  lemma LatencyReadBack(env: Env, pi: PaymentIntent, idempotencyKey: Option<string>, latencyMs: int)
    requires SessionFor(env, pi, idempotencyKey, latencyMs).Ok?
    ensures LatencyOf(SessionFor(env, pi, idempotencyKey, latencyMs).value.checkoutConfig) == latencyMs
  {
  }

  /** The health events of a session call, with the payloads the tracker
      saves: none on success (`Map.of` refuses the null error type, see
      `Health.SessionPayloadAsWritten`), and on failure the error type with
      the latency still at its initial 0. */
  function SucceededEvent(p: Provider, intentId: string, latencyMs: int, now: Millis): PaymentEvent {
    SessionEvent(p, intentId, true, SessionPayloadAsWritten(latencyMs, true, None), now)
  }

  function FailedEvent(p: Provider, intentId: string, kind: ProviderErrorType, now: Millis): PaymentEvent {
    SessionEvent(p, intentId, false, SessionPayloadAsWritten(0, false, Some(ErrorTypeName(kind))), now)
  }

  /** The error kinds worth trying another provider for. */
  predicate Eligible(kind: ProviderErrorType) {
    kind == TIMEOUT || kind == HTTP_5XX || kind == VALIDATION
  }

  // ---------------------------------------------------------------------
  // What createInternal writes

  /** The writes of `createInternal` and its outcome: the intent's final
      row (none when routing fails first), the routing decisions and the
      health session events in the order they are saved, and the checkout
      configuration stored under the intent id. */
  datatype Plan = Plan(
    intent: Option<PaymentIntent>,
    decisions: seq<Decision>,
    sessions: seq<PaymentEvent>,
    config: Option<Checkout>,
    result: Result<Created, Failure>)

  /** The intent is saved FAILED and the call ends with BAD_GATEWAY. */
  function Abandoned(pi: PaymentIntent, decisions: seq<Decision>, sessions: seq<PaymentEvent>, message: string): Plan {
    Plan(Some(pi.(status := FAILED)), decisions, sessions, None, Err(Api(BAD_GATEWAY, message)))
  }

  /** The success path: the provider reference is stored, the status
      becomes REQUIRES_PAYMENT_METHOD, and the configuration is stored
      without the latency entry. */
  function Completed(pi: PaymentIntent, s: CreateSessionResult, decisions: seq<Decision>, sessions: seq<PaymentEvent>): Plan {
    var fin := pi.(providerRef := Some(s.providerRef), status := REQUIRES_PAYMENT_METHOD);
    var config := s.checkoutConfig - {LATENCY_KEY};
    Plan(Some(fin), decisions, sessions, Some(config), Ok(Created(fin, config)))
  }

  /** The intent after the first decision: CREATED, with the routing's
      provider and reason and the decision's id. */
  function Opened(merchantId: string, d: Draws, root: string, attempt: int, cmd: CreateCommand,
                  idempotencyKey: Option<string>, routing: Routed): PaymentIntent {
    PaymentIntent(d.intentId, merchantId, cmd.amountMinor, ToUpper(cmd.currency), cmd.description, CREATED,
                  routing.provider, None, idempotencyKey, Some(d.decisionId), Some(routing.reasonCode),
                  Some(root), attempt, d.now)
  }

  /** The fallback, once the first provider failed with an eligible kind:
      route again with AUTO excluding it, save the INSTANT_FALLBACK
      decision, point the intent at it and retry. Anything that goes wrong
      on the way leaves the intent FAILED with one message. */
  function FallbackPlan(env: Env, d: Draws, pi: PaymentIntent, idempotencyKey: Option<string>, excluded: set<Provider>): Plan {
    if env.available(pi.merchantId, excluded) == [] then Abandoned(pi, [], [], BOTH_FAILED)
    else
      match env.decide(pi.merchantId, pi.id, pi.amountMinor, pi.currency, AUTO, excluded)
      case Err(_) => Abandoned(pi, [], [], BOTH_FAILED)
      case Ok(fr) =>
        var second := DecisionRepository.RoutingDecision(d.fallbackDecisionId, pi.id, pi.merchantId, fr.provider,
                                                         fr.scoresJson, INSTANT_FALLBACK, d.now);
        var retry := pi.(provider := fr.provider, routingDecisionId := Some(d.fallbackDecisionId),
                         routingReasonCode := Some(INSTANT_FALLBACK));
        RetryPlan(env, d, retry, idempotencyKey).(decisions := [second])
  }

  /** The second session call, on the intent moved to the fallback
      provider; any failure leaves it FAILED. */
  function RetryPlan(env: Env, d: Draws, retry: PaymentIntent, idempotencyKey: Option<string>): Plan {
    match SessionFor(env, retry, idempotencyKey, d.fallbackLatencyMs)
    case Ok(s) => Completed(retry, s, [], [SucceededEvent(retry.provider, retry.id, LatencyOf(s.checkoutConfig), d.now)])
    case Err(f) =>
      Abandoned(retry, [], if f.ProviderFailure? then [FailedEvent(retry.provider, retry.id, f.kind, d.now)] else [],
                BOTH_FAILED)
  }

  /** The first session call and what follows it. */
  function AttemptPlan(env: Env, d: Draws, pi: PaymentIntent, idempotencyKey: Option<string>, excluded: set<Provider>): Plan {
    match SessionFor(env, pi, idempotencyKey, d.latencyMs)
    case Ok(s) => Completed(pi, s, [], [SucceededEvent(pi.provider, pi.id, LatencyOf(s.checkoutConfig), d.now)])
    case Err(f) =>
      if !f.ProviderFailure? then Plan(Some(pi), [], [], None, Err(f))
      else AfterFailure(env, d, pi, idempotencyKey, excluded, f.kind)
  }

  /** After a `ProviderException` of the first call: the failure is
      recorded; an eligible kind falls back, any other ends the intent. */
  function AfterFailure(env: Env, d: Draws, pi: PaymentIntent, idempotencyKey: Option<string>, excluded: set<Provider>,
                        kind: ProviderErrorType): Plan {
    var failed := FailedEvent(pi.provider, pi.id, kind, d.now);
    if !Eligible(kind) then Abandoned(pi, [], [failed], PROVIDER_FAILED)
    else
      var fb := FallbackPlan(env, d, pi, idempotencyKey, excluded + {pi.provider});
      fb.(sessions := [failed] + fb.sessions)
  }

  /** `createInternal` */
  function CreatePlan(env: Env, d: Draws, merchantId: string, root: string, attempt: int, cmd: CreateCommand,
                      idempotencyKey: Option<string>, excluded: set<Provider>): Plan {
    var currency := ToUpper(cmd.currency);
    match RouteFor(env, merchantId, d.intentId, cmd.amountMinor, currency, cmd.preference.GetOr(AUTO), excluded, d.demoScoresJson)
    case Err(f) => Plan(None, [], [], None, Err(f))
    case Ok(routing) =>
      var pi := Opened(merchantId, d, root, attempt, cmd, idempotencyKey, routing);
      var first := DecisionRepository.RoutingDecision(d.decisionId, pi.id, merchantId, routing.provider,
                                                      routing.scoresJson, routing.reasonCode, d.now);
      var rest := AttemptPlan(env, d, pi, idempotencyKey, excluded);
      rest.(decisions := [first] + rest.decisions)
  }

  /** The first routing of a create, when it succeeds. */
  function FirstRouting(env: Env, d: Draws, merchantId: string, cmd: CreateCommand, excluded: set<Provider>)
    : Result<Routed, Failure>
  {
    RouteFor(env, merchantId, d.intentId, cmd.amountMinor, ToUpper(cmd.currency), cmd.preference.GetOr(AUTO),
             excluded, d.demoScoresJson)
  }

  // ---------------------------------------------------------------------
  // Properties of createInternal

  /** Routing source: a DEMO preference, or no available candidate, routes
      to DEMO with reason DEMO_MODE in the first decision; an explicit
      preference that is not available fails with UNPROCESSABLE_ENTITY
      before anything is written. */
  lemma RoutingSource(env: Env, d: Draws, merchantId: string, root: string, attempt: int, cmd: CreateCommand,
                      idempotencyKey: Option<string>, excluded: set<Provider>)
    ensures var p := CreatePlan(env, d, merchantId, root, attempt, cmd, idempotencyKey, excluded);
            var pref := cmd.preference.GetOr(AUTO);
            var explicit := ToProvider(pref);
            var unavailable := pref != PREFER_DEMO && pref != AUTO && ExplicitUnavailable(env.status(merchantId, explicit.value));
            && (unavailable ==> p == Plan(None, [], [], None, Err(UnavailableError(explicit.value, env.status(merchantId, explicit.value)))))
            && (pref == PREFER_DEMO || (!unavailable && env.available(merchantId, excluded) == [])
                ==> p.decisions != [] && p.decisions[0].chosenProvider == DEMO && p.decisions[0].reasonCode == DEMO_MODE)
  {
  }

  /** The fields of an intent fixed by the request. */
  predicate KeepsRequest(a: PaymentIntent, b: PaymentIntent) {
    && a.id == b.id && a.merchantId == b.merchantId && a.amountMinor == b.amountMinor
    && a.currency == b.currency && a.description == b.description && a.idempotencyKey == b.idempotencyKey
    && a.rootPaymentIntentId == b.rootPaymentIntentId && a.attemptNumber == b.attemptNumber && a.createdAt == b.createdAt
  }

  /** The intent records the decision: its id, its reason and its provider. */
  predicate PointsAt(pi: PaymentIntent, dec: Decision) {
    pi.routingDecisionId == Some(dec.id) && pi.routingReasonCode == Some(dec.reasonCode) && pi.provider == dec.chosenProvider
  }

  predicate SameRouting(a: PaymentIntent, b: PaymentIntent) {
    a.provider == b.provider && a.routingDecisionId == b.routingDecisionId && a.routingReasonCode == b.routingReasonCode
  }

  /** What a session attempt, or the fallback, writes beyond the intent it
      starts from: at most the INSTANT_FALLBACK decision, which the intent
      then records. */
  predicate WritesFrom(p: Plan, d: Draws, pi: PaymentIntent) {
    && p.intent.Some? && KeepsRequest(p.intent.value, pi) && |p.decisions| <= 1
    && (|p.decisions| == 0 ==> SameRouting(p.intent.value, pi))
    && (|p.decisions| == 1 ==>
          && p.decisions[0].id == d.fallbackDecisionId && p.decisions[0].reasonCode == INSTANT_FALLBACK
          && p.decisions[0].paymentIntentId == pi.id && p.decisions[0].merchantId == pi.merchantId
          && PointsAt(p.intent.value, p.decisions[0]))
  }

  lemma FallbackWrites(env: Env, d: Draws, pi: PaymentIntent, idempotencyKey: Option<string>, excluded: set<Provider>)
    ensures WritesFrom(FallbackPlan(env, d, pi, idempotencyKey, excluded), d, pi)
  {
  }

  lemma AttemptWrites(env: Env, d: Draws, pi: PaymentIntent, idempotencyKey: Option<string>, excluded: set<Provider>)
    ensures WritesFrom(AttemptPlan(env, d, pi, idempotencyKey, excluded), d, pi)
  {
    var f := SessionFor(env, pi, idempotencyKey, d.latencyMs);
    if f.Err? && f.error.ProviderFailure? && Eligible(f.error.kind) {
      FallbackWrites(env, d, pi, idempotencyKey, excluded + {pi.provider});
    }
  }

  /** A routing failure writes nothing; otherwise the intent is written with
      the request's fields, its root and attempt and key, and it points at
      the last decision saved, of which there are one or two, all for this
      intent; the first has the routing's provider and reason, a second one
      is the INSTANT_FALLBACK decision. */
  lemma PlanWrites(env: Env, d: Draws, merchantId: string, root: string, attempt: int, cmd: CreateCommand,
                   idempotencyKey: Option<string>, excluded: set<Provider>)
    ensures var p := CreatePlan(env, d, merchantId, root, attempt, cmd, idempotencyKey, excluded);
            var routing := FirstRouting(env, d, merchantId, cmd, excluded);
            && (routing.Err? ==> p == Plan(None, [], [], None, Err(routing.error)))
            && (routing.Ok? ==>
                  var pi := p.intent.value;
                  && p.intent.Some? && 1 <= |p.decisions| <= 2
                  && pi.id == d.intentId && pi.merchantId == merchantId && pi.amountMinor == cmd.amountMinor
                  && pi.currency == ToUpper(cmd.currency) && pi.description == cmd.description
                  && pi.rootPaymentIntentId == Some(root) && pi.attemptNumber == attempt
                  && pi.idempotencyKey == idempotencyKey && pi.createdAt == d.now
                  && (forall k :: 0 <= k < |p.decisions| ==>
                        p.decisions[k].paymentIntentId == d.intentId && p.decisions[k].merchantId == merchantId)
                  && p.decisions[0].id == d.decisionId
                  && p.decisions[0].chosenProvider == routing.value.provider
                  && p.decisions[0].reasonCode == routing.value.reasonCode
                  && (|p.decisions| == 2 ==> p.decisions[1].id == d.fallbackDecisionId
                                             && p.decisions[1].reasonCode == INSTANT_FALLBACK)
                  && PointsAt(pi, p.decisions[|p.decisions| - 1]))
  {
    var routing := FirstRouting(env, d, merchantId, cmd, excluded);
    if routing.Ok? {
      var pi := Opened(merchantId, d, root, attempt, cmd, idempotencyKey, routing.value);
      AttemptWrites(env, d, pi, idempotencyKey, excluded);
      var rest := AttemptPlan(env, d, pi, idempotencyKey, excluded);
      var first := DecisionRepository.RoutingDecision(d.decisionId, pi.id, merchantId, routing.value.provider,
                                                      routing.value.scoresJson, routing.value.reasonCode, d.now);
      var p := CreatePlan(env, d, merchantId, root, attempt, cmd, idempotencyKey, excluded);
      assert p == rest.(decisions := [first] + rest.decisions);
      assert p.intent == rest.intent;
      forall k | 0 <= k < |p.decisions|
        ensures p.decisions[k].paymentIntentId == d.intentId && p.decisions[k].merchantId == merchantId
      {
        if k > 0 { assert p.decisions[k] == rest.decisions[k - 1]; }
      }
    }
  }

  /** Fallback eligibility: a failed first session is the first health
      event, a failure of its provider with its error type. A kind other
      than TIMEOUT, HTTP_5XX and VALIDATION ends there, FAILED, with one
      decision and one event; an eligible kind ends in success or in
      "Both providers failed", never in the single-provider message. */
  lemma FallbackEligibility(env: Env, d: Draws, merchantId: string, root: string, attempt: int, cmd: CreateCommand,
                            idempotencyKey: Option<string>, excluded: set<Provider>)
    requires FirstRouting(env, d, merchantId, cmd, excluded).Ok?
    ensures var routing := FirstRouting(env, d, merchantId, cmd, excluded).value;
            var pi := Opened(merchantId, d, root, attempt, cmd, idempotencyKey, routing);
            var first := SessionFor(env, pi, idempotencyKey, d.latencyMs);
            var p := CreatePlan(env, d, merchantId, root, attempt, cmd, idempotencyKey, excluded);
            first.Err? && first.error.ProviderFailure? ==>
              var kind := first.error.kind;
              && p.sessions != [] && p.sessions[0] == FailedEvent(routing.provider, d.intentId, kind, d.now)
              && (!Eligible(kind) ==> p == Abandoned(pi, [p.decisions[0]], [p.sessions[0]], PROVIDER_FAILED))
              && (Eligible(kind) ==> p.result.Ok? || p.result == Err(Api(BAD_GATEWAY, BOTH_FAILED)))
  {
  }

  /** Fallback execution: after an eligible failure the engine is asked
      with AUTO and the failed provider added to the exclusions; with no
      candidate or a routing error the intent is left FAILED with no second
      decision, otherwise the INSTANT_FALLBACK decision names the engine's
      choice, the retry goes to that provider, and a failure of the retry is
      recorded against it. */
  lemma FallbackExecution(env: Env, d: Draws, pi: PaymentIntent, idempotencyKey: Option<string>, excluded: set<Provider>)
    ensures var p := FallbackPlan(env, d, pi, idempotencyKey, excluded);
            var routed := env.decide(pi.merchantId, pi.id, pi.amountMinor, pi.currency, AUTO, excluded);
            && (env.available(pi.merchantId, excluded) == [] || routed.Err? ==>
                  p == Abandoned(pi, [], [], BOTH_FAILED))
            && (env.available(pi.merchantId, excluded) != [] && routed.Ok? ==>
                  && |p.decisions| == 1 && p.decisions[0].chosenProvider == routed.value.provider
                  && p.decisions[0].reasonCode == INSTANT_FALLBACK
                  && p.intent.value.provider == routed.value.provider
                  && (p.result.Err? ==> p.intent.value.status == FAILED)
                  && (p.result.Err? ==> p.result == Err(Api(BAD_GATEWAY, BOTH_FAILED)))
                  && (forall k :: 0 <= k < |p.sessions| ==> p.sessions[k].provider == routed.value.provider))
  {
  }

  /** Success path: a returned intent is the row written, in
      REQUIRES_PAYMENT_METHOD with the adapter's reference, and the stored
      configuration is the adapter's without the latency entry. */
  lemma SuccessPath(env: Env, d: Draws, merchantId: string, root: string, attempt: int, cmd: CreateCommand,
                    idempotencyKey: Option<string>, excluded: set<Provider>)
    ensures var p := CreatePlan(env, d, merchantId, root, attempt, cmd, idempotencyKey, excluded);
            && (p.result.Ok? <==> p.config.Some?)
            && (p.result.Ok? ==>
                  var c := p.result.value;
                  var adapter := env.createSession(SessionCommand(env, c.intent.(providerRef := None, status := CREATED), idempotencyKey));
                  && p.intent == Some(c.intent) && p.config == Some(c.checkoutConfig)
                  && c.intent.status == REQUIRES_PAYMENT_METHOD
                  && adapter.Ok? && c.intent.providerRef == Some(adapter.value.providerRef)
                  && c.checkoutConfig == adapter.value.checkoutConfig - {LATENCY_KEY}
                  && LATENCY_KEY !in c.checkoutConfig)
            && (p.result.Err? && p.intent.Some? ==> p.intent.value.status == FAILED || p.intent.value.status == CREATED)
  {
    var routing := FirstRouting(env, d, merchantId, cmd, excluded);
    if routing.Ok? {
      var pi := Opened(merchantId, d, root, attempt, cmd, idempotencyKey, routing.value);
      AttemptSucceeds(env, d, pi, idempotencyKey, excluded);
    }
  }

  /** The outcome of a plan that starts from an intent to which no session
      has been attached: success exactly with a stored configuration, which
      is the adapter's own without the latency entry, on an intent in
      REQUIRES_PAYMENT_METHOD holding the adapter's reference; a failure
      leaves it FAILED or CREATED. */
  ghost predicate Succeeds(env: Env, p: Plan, idempotencyKey: Option<string>) {
    && (p.result.Ok? <==> p.config.Some?)
    && (p.result.Ok? ==>
          var c := p.result.value;
          var adapter := env.createSession(SessionCommand(env, c.intent.(providerRef := None, status := CREATED), idempotencyKey));
          && p.intent == Some(c.intent) && p.config == Some(c.checkoutConfig)
          && c.intent.status == REQUIRES_PAYMENT_METHOD
          && adapter.Ok? && c.intent.providerRef == Some(adapter.value.providerRef)
          && c.checkoutConfig == adapter.value.checkoutConfig - {LATENCY_KEY}
          && LATENCY_KEY !in c.checkoutConfig)
    && (p.result.Err? && p.intent.Some? ==> p.intent.value.status == FAILED || p.intent.value.status == CREATED)
  }

  lemma AttemptSucceeds(env: Env, d: Draws, pi: PaymentIntent, idempotencyKey: Option<string>, excluded: set<Provider>)
    requires pi.providerRef == None && pi.status == CREATED
    ensures Succeeds(env, AttemptPlan(env, d, pi, idempotencyKey, excluded), idempotencyKey)
  {
    assert pi.(providerRef := None, status := CREATED) == pi;
    var first := SessionFor(env, pi, idempotencyKey, d.latencyMs);
    if first.Err? && first.error.ProviderFailure? && Eligible(first.error.kind) {
      FallbackSucceeds(env, d, pi, idempotencyKey, excluded + {pi.provider});
    }
  }

  lemma FallbackSucceeds(env: Env, d: Draws, pi: PaymentIntent, idempotencyKey: Option<string>, excluded: set<Provider>)
    requires pi.providerRef == None && pi.status == CREATED
    ensures Succeeds(env, FallbackPlan(env, d, pi, idempotencyKey, excluded), idempotencyKey)
  {
    var routed := env.decide(pi.merchantId, pi.id, pi.amountMinor, pi.currency, AUTO, excluded);
    if env.available(pi.merchantId, excluded) != [] && routed.Ok? {
      var fr := routed.value;
      var retry := pi.(provider := fr.provider, routingDecisionId := Some(d.fallbackDecisionId),
                       routingReasonCode := Some(INSTANT_FALLBACK));
      assert retry.(providerRef := None, status := CREATED) == retry;
    }
  }

  /** Every session event is for the intent being created, and there is
      at most one per provider call: at most two in all. */
  lemma SessionsRecorded(env: Env, d: Draws, merchantId: string, root: string, attempt: int, cmd: CreateCommand,
                         idempotencyKey: Option<string>, excluded: set<Provider>)
    ensures var p := CreatePlan(env, d, merchantId, root, attempt, cmd, idempotencyKey, excluded);
            && |p.sessions| <= 2
            && (|p.sessions| == 2 ==> |p.decisions| == 2 && p.sessions[1].provider == p.decisions[1].chosenProvider)
            && forall k :: 0 <= k < |p.sessions| ==> p.sessions[k].paymentIntentId == Some(d.intentId)
  {
    var routing := FirstRouting(env, d, merchantId, cmd, excluded);
    if routing.Ok? {
      var pi := Opened(merchantId, d, root, attempt, cmd, idempotencyKey, routing.value);
      AttemptSessions(env, d, pi, idempotencyKey, excluded);
      var rest := AttemptPlan(env, d, pi, idempotencyKey, excluded);
      var p := CreatePlan(env, d, merchantId, root, attempt, cmd, idempotencyKey, excluded);
      assert p.sessions == rest.sessions && p.decisions[1..] == rest.decisions;
    }
  }

  /** The first call records at most one event, and the fallback at most
      one more, for the fallback decision's provider. */
  lemma AttemptSessions(env: Env, d: Draws, pi: PaymentIntent, idempotencyKey: Option<string>, excluded: set<Provider>)
    ensures var p := AttemptPlan(env, d, pi, idempotencyKey, excluded);
            && |p.sessions| <= 2
            && (|p.sessions| == 2 ==> |p.decisions| == 1 && p.sessions[1].provider == p.decisions[0].chosenProvider)
            && forall k :: 0 <= k < |p.sessions| ==> p.sessions[k].paymentIntentId == Some(pi.id)
  {
    var f := SessionFor(env, pi, idempotencyKey, d.latencyMs);
    if f.Err? && f.error.ProviderFailure? && Eligible(f.error.kind) {
      FallbackSessions(env, d, pi, idempotencyKey, excluded + {pi.provider});
      var fb := FallbackPlan(env, d, pi, idempotencyKey, excluded + {pi.provider});
      var p := AttemptPlan(env, d, pi, idempotencyKey, excluded);
      assert p.sessions == [FailedEvent(pi.provider, pi.id, f.error.kind, d.now)] + fb.sessions;
      assert p.decisions == fb.decisions;
    }
  }

  /** The fallback records at most one event, for the provider of the
      decision it saves. */
  lemma FallbackSessions(env: Env, d: Draws, pi: PaymentIntent, idempotencyKey: Option<string>, excluded: set<Provider>)
    ensures var p := FallbackPlan(env, d, pi, idempotencyKey, excluded);
            && |p.sessions| <= 1
            && (|p.sessions| == 1 ==> |p.decisions| == 1 && p.sessions[0].provider == p.decisions[0].chosenProvider)
            && forall k :: 0 <= k < |p.sessions| ==> p.sessions[k].paymentIntentId == Some(pi.id)
  {
  }

  // ---------------------------------------------------------------------
  // Health rows after the session events

  function RowOf(rows: map<Provider, HealthRow>, p: Provider, now: Millis): (r: HealthRow)
    requires RowsOk(rows)
    ensures RowInvariant(r)
  {
    if p in rows then rows[p] else FreshRow(now)
  }

  lemma RowsOkUpdate(rows: map<Provider, HealthRow>, p: Provider, row: HealthRow)
    requires RowsOk(rows) && RowInvariant(row)
    ensures RowsOk(rows[p := row])
  {
  }

  /** The health rows after the session events `added` have been recorded
      one by one on top of the log `base`, each recomputing its provider's
      row with the session's outcome. */
  function RowsAfterSessions(rows: map<Provider, HealthRow>, base: seq<PaymentEvent>, added: seq<PaymentEvent>, now: Millis)
    : (r: map<Provider, HealthRow>)
    requires RowsOk(rows)
    ensures RowsOk(r)
    decreases |added|, 2
  {
    if added == [] then rows else RowsAfterLastSession(rows, base, added, now)
  }

  /** The rows once the last of `added` has replaced its provider's row. */
  function RowsAfterLastSession(rows: map<Provider, HealthRow>, base: seq<PaymentEvent>, added: seq<PaymentEvent>, now: Millis)
    : (r: map<Provider, HealthRow>)
    requires RowsOk(rows) && added != []
    ensures RowsOk(r)
    decreases |added|, 1
  {
    var prev := RowsAfterSessions(rows, base, added[..|added| - 1], now);
    var row := LastSessionRow(rows, base, added, now);
    RowsOkUpdate(prev, added[|added| - 1].provider, row);
    prev[added[|added| - 1].provider := row]
  }

  /** The row the last of `added` recomputes: its provider's row before it
      (a fresh one if there is none), over the log that ends with it. */
  function LastSessionRow(rows: map<Provider, HealthRow>, base: seq<PaymentEvent>, added: seq<PaymentEvent>, now: Millis)
    : (r: HealthRow)
    requires RowsOk(rows) && added != []
    ensures RowInvariant(r)
    decreases |added|, 0
  {
    var prev := RowsAfterSessions(rows, base, added[..|added| - 1], now);
    var e := added[|added| - 1];
    Recomputed(RowOf(prev, e.provider, now), base + added, e.provider,
               Some(e.eventType == PROVIDER_CREATE_SESSION_SUCCEEDED), now)
  }

  /** Recording one more session event recomputes its provider's row from
      the log that ends with it. */
  lemma RowsAfterSnoc(rows: map<Provider, HealthRow>, base: seq<PaymentEvent>, added: seq<PaymentEvent>,
                      e: PaymentEvent, now: Millis)
    requires RowsOk(rows)
    ensures var prev := RowsAfterSessions(rows, base, added, now);
            RowsAfterSessions(rows, base, added + [e], now)
              == prev[e.provider := Recomputed(RowOf(prev, e.provider, now), base + added + [e], e.provider,
                                               Some(e.eventType == PROVIDER_CREATE_SESSION_SUCCEEDED), now)]
  {
    var all := added + [e];
    assert all[..|all| - 1] == added;
    AppendAssoc(base, added, [e]);
    var prev := RowsAfterSessions(rows, base, added, now);
    assert LastSessionRow(rows, base, all, now)
        == Recomputed(RowOf(prev, e.provider, now), base + all, e.provider,
                      Some(e.eventType == PROVIDER_CREATE_SESSION_SUCCEEDED), now);
    assert RowsAfterLastSession(rows, base, all, now) == prev[e.provider := LastSessionRow(rows, base, all, now)];
  }

  /** What `recordCreateSessionOutcome` does to the rows is one more step
      of the fold. */
  lemma SessionRecorded(rows: map<Provider, HealthRow>, base: seq<PaymentEvent>, added: seq<PaymentEvent>,
                        p: Provider, intentId: string, success: bool, payload: Option<Payload>, now: Millis)
    requires RowsOk(rows)
    ensures var e := SessionEvent(p, intentId, success, payload, now);
            var prev := RowsAfterSessions(rows, base, added, now);
            RowsAfterSessions(rows, base, added + [e], now)
               == prev[p := Recomputed(if p in prev then prev[p] else FreshRow(now), base + added + [e], p, Some(success), now)]
  {
    var e := SessionEvent(p, intentId, success, payload, now);
    var prev := RowsAfterSessions(rows, base, added, now);
    assert RowOf(prev, p, now) == if p in prev then prev[p] else FreshRow(now);
    assert Some(e.eventType == PROVIDER_CREATE_SESSION_SUCCEEDED) == Some(success);
    RowsAfterSnoc(rows, base, added, e, now);
  }

  /** The providers whose rows the session events leave alone keep them. */
  lemma {:induction false} RowsAfterSessionsElsewhere(rows: map<Provider, HealthRow>, base: seq<PaymentEvent>,
                                                     added: seq<PaymentEvent>, now: Millis, p: Provider)
    requires RowsOk(rows) && p in rows
    requires forall k :: 0 <= k < |added| ==> added[k].provider != p
    ensures p in RowsAfterSessions(rows, base, added, now)
    ensures RowsAfterSessions(rows, base, added, now)[p] == rows[p]
    decreases |added|
  {
    if added != [] {
      var front := added[..|added| - 1];
      assert forall k :: 0 <= k < |front| ==> front[k] == added[k];
      RowsAfterSessionsElsewhere(rows, base, front, now, p);
      assert added[|added| - 1].provider != p;
      assert RowsAfterSessions(rows, base, added, now) == RowsAfterLastSession(rows, base, added, now);
    }
  }

  // ---------------------------------------------------------------------
  // Idempotency

  datatype IdempotencyKey = IdempotencyKey(merchantId: string, endpoint: string, key: string)

  datatype IdempotencyRecord = IdempotencyRecord(paymentIntentId: string, requestHash: string)

  type IdempotencyTable = map<IdempotencyKey, IdempotencyRecord>

  /** The enum constant's name. */
  function PreferenceName(p: Preference): (r: string)
    ensures r != []
  {
    match p
    case AUTO => "AUTO"
    case PREFER_STRIPE => "STRIPE"
    case PREFER_ADYEN => "ADYEN"
    case PREFER_DEMO => "DEMO"
    case PREFER_PAYPAL => "PAYPAL"
    case PREFER_TRANSBANK => "TRANSBANK"
  }

  /** `requestHash`: `Map.of` refuses a null description and `name()` a
      null preference, so the JSON form is written only when both are
      present; otherwise the exception leads to the plain form
      "amount:currency:preference". */
  function RequestHashText(env: Env, cmd: CreateCommand): (r: string)
    ensures cmd.description.None? || cmd.preference.None? ==>
              r == LongToString(cmd.amountMinor) + ":" + cmd.currency + ":"
                   + (if cmd.preference.None? then "null" else PreferenceName(cmd.preference.value))
  {
    if cmd.description.None? || cmd.preference.None? then
      LongToString(cmd.amountMinor) + ":" + cmd.currency + ":"
      + (if cmd.preference.None? then "null" else PreferenceName(cmd.preference.value))
    else env.writeJson(cmd.amountMinor, cmd.currency, cmd.description.value, PreferenceName(cmd.preference.value))
  }

  /** `Sha256.hex(requestHash(command))`, the digest itself abstract. */
  function RequestHash(env: Env, cmd: CreateCommand): (h: string)
    ensures |h| == 2 * |env.digest(Utf8(RequestHashText(env, cmd)))|
  {
    HexText(env.digest(Utf8(RequestHashText(env, cmd))))
  }

  /** A key given and recorded for this merchant on this endpoint. */
  predicate Replays(idempotency: IdempotencyTable, merchantId: string, idempotencyKey: Option<string>) {
    !IsNullOrBlank(idempotencyKey) && IdempotencyKey(merchantId, IDEMPOTENCY_ENDPOINT, idempotencyKey.value) in idempotency
  }

  /** What a repeated create returns: the recorded intent, if it is still
      the merchant's, with its stored configuration. */
  function Replay(t: Table, configs: map<string, Checkout>, merchantId: string, intentId: string): (r: Result<Created, Failure>)
    ensures r.Ok? ==> r.value.intent in t && r.value.intent.id == intentId && r.value.intent.merchantId == merchantId
                      && intentId in configs && r.value.checkoutConfig == configs[intentId]
    ensures r == Err(REPLAY_MISSING) <==> FindByIdAndMerchantId(t, intentId, merchantId).None?
  {
    match FindByIdAndMerchantId(t, intentId, merchantId)
    case None => Err(REPLAY_MISSING)
    case Some(pi) => if pi.id in configs then Ok(Created(pi, configs[pi.id])) else Err(CONFIG_MISSING)
  }

  /** `getWithCheckoutConfig`: nothing for an intent the merchant does not
      own, otherwise the intent with its configuration, which must exist. */
  function GetWithCheckoutConfig(t: Table, configs: map<string, Checkout>, merchantId: string, intentId: string)
    : (r: Option<Result<Created, Failure>>)
    ensures r.None? <==> FindByIdAndMerchantId(t, intentId, merchantId).None?
    ensures r.Some? ==> r.value == Replay(t, configs, merchantId, intentId)
  {
    match FindByIdAndMerchantId(t, intentId, merchantId)
    case None => None
    case Some(pi) => Some(if pi.id in configs then Ok(Created(pi, configs[pi.id])) else Err(CONFIG_MISSING))
  }

  /** Idempotent create: once a create has returned, replaying it on the
      state it left returns the same intent and configuration. */
  lemma CreateThenReplay(env: Env, d: Draws, merchantId: string, cmd: CreateCommand, idempotencyKey: Option<string>,
                         t: Table, configs: map<string, Checkout>)
    requires UniqueIds(t) && FindById(t, d.intentId).None?
    requires CreatePlan(env, d, merchantId, d.intentId, 0, cmd, idempotencyKey, {}).result.Ok?
    ensures var p := CreatePlan(env, d, merchantId, d.intentId, 0, cmd, idempotencyKey, {});
            Replay(t + [p.intent.value], configs[d.intentId := p.config.value], merchantId, p.result.value.intent.id)
              == p.result
  {
    var p := CreatePlan(env, d, merchantId, d.intentId, 0, cmd, idempotencyKey, {});
    PlanWrites(env, d, merchantId, d.intentId, 0, cmd, idempotencyKey, {});
    SuccessPath(env, d, merchantId, d.intentId, 0, cmd, idempotencyKey, {});
    var pi := p.intent.value;
    SaveNew(t, pi);
    SaveThenFind(t, pi);
  }

  // ---------------------------------------------------------------------
  // Reroute

  /** The intent a reroute starts from, the root it shares, and the
      attempt number of the new intent. */
  datatype Reattempt = Reattempt(existing: PaymentIntent, root: string, attempt: nat)

  /** The root of an intent: its recorded root, or its own id. */
  function RootOf(pi: PaymentIntent): string {
    if pi.rootPaymentIntentId.None? then pi.id else pi.rootPaymentIntentId.value
  }

  /** The checks of `reroute`, in order. */
  function RerouteGuard(env: Env, t: Table, merchantId: string, intentId: string): (r: Result<Reattempt, Failure>)
    ensures merchantId !in env.merchants ==> r == Err(MERCHANT_NOT_FOUND)
    ensures merchantId in env.merchants && FindByIdAndMerchantId(t, intentId, merchantId).None? ==> r == Err(INTENT_NOT_FOUND)
    ensures r.Ok? ==> && merchantId in env.merchants
                      && FindByIdAndMerchantId(t, intentId, merchantId) == Some(r.value.existing)
                      && (r.value.existing.status == FAILED || r.value.existing.status == REQUIRES_PAYMENT_METHOD)
                      && r.value.root == RootOf(r.value.existing)
                      && r.value.attempt == CountByRoot(t, r.value.root) < MAX_ATTEMPTS_PER_ROOT
    ensures var found := FindByIdAndMerchantId(t, intentId, merchantId);
            merchantId in env.merchants && found.Some? ==>
              && (found.value.status != FAILED && found.value.status != REQUIRES_PAYMENT_METHOD <==> r == Err(REROUTE_REFUSED))
              && (r == Err(TOO_MANY_ATTEMPTS) <==>
                    (found.value.status == FAILED || found.value.status == REQUIRES_PAYMENT_METHOD)
                    && CountByRoot(t, RootOf(found.value)) >= MAX_ATTEMPTS_PER_ROOT)
  {
    if merchantId !in env.merchants then Err(MERCHANT_NOT_FOUND)
    else
      match FindByIdAndMerchantId(t, intentId, merchantId)
      case None => Err(INTENT_NOT_FOUND)
      case Some(existing) =>
        if !(existing.status == FAILED || existing.status == REQUIRES_PAYMENT_METHOD) then Err(REROUTE_REFUSED)
        else
          var root := RootOf(existing);
          var count := CountByRoot(t, root);
          if count >= MAX_ATTEMPTS_PER_ROOT then Err(TOO_MANY_ATTEMPTS)
          else Ok(Reattempt(existing, root, count))
  }

  /** The command of a reroute: the existing amount, currency and
      description with the requested preference (AUTO when none). */
  function RerouteCommand(existing: PaymentIntent, preference: Preference): CreateCommand {
    CreateCommand(existing.amountMinor, existing.currency, existing.description, Some(preference))
  }

  /** An AUTO reroute excludes the provider that was tried. */
  function RerouteExcluded(existing: PaymentIntent, preference: Preference): (ex: set<Provider>)
    ensures preference == AUTO <==> existing.provider in ex
    ensures ex <= {existing.provider}
  {
    if preference == AUTO then {existing.provider} else {}
  }

  /** The plan of a reroute that passed its checks. */
  function ReroutePlan(env: Env, d: Draws, merchantId: string, g: Reattempt, preference: Option<Preference>): Plan {
    var pref := preference.GetOr(AUTO);
    CreatePlan(env, d, merchantId, g.root, g.attempt, RerouteCommand(g.existing, pref), None, RerouteExcluded(g.existing, pref))
  }

  /** A reroute's new intent keeps the root, takes the count as its attempt
      number and has no idempotency key; the intents sharing a root never
      number more than three. */
  lemma RerouteAttempt(env: Env, d: Draws, t: Table, merchantId: string, intentId: string, preference: Option<Preference>)
    requires RerouteGuard(env, t, merchantId, intentId).Ok?
    ensures var g := RerouteGuard(env, t, merchantId, intentId).value;
            var p := ReroutePlan(env, d, merchantId, g, preference);
            p.intent.Some? ==>
              && p.intent.value.rootPaymentIntentId == Some(g.root)
              && p.intent.value.attemptNumber == CountByRoot(t, g.root)
              && p.intent.value.idempotencyKey.None?
              && p.intent.value.amountMinor == g.existing.amountMinor
              && CountByRoot(t + [p.intent.value], g.root) <= MAX_ATTEMPTS_PER_ROOT
  {
    var g := RerouteGuard(env, t, merchantId, intentId).value;
    var pref := preference.GetOr(AUTO);
    var p := ReroutePlan(env, d, merchantId, g, preference);
    PlanWrites(env, d, merchantId, g.root, g.attempt, RerouteCommand(g.existing, pref), None, RerouteExcluded(g.existing, pref));
    if p.intent.Some? {
      CountByRootAppend(t, p.intent.value, g.root);
    }
  }

  // ---------------------------------------------------------------------
  // Refund

  /** `RefundResultView` */
  datatype RefundView = RefundView(paymentIntentId: string, status: PaymentStatus, provider: Provider, providerRefundRef: string)

  /** The checks of `refund`: the merchant's intent, SUCCEEDED. */
  function RefundGuard(t: Table, merchantId: string, intentId: string): (r: Result<PaymentIntent, Failure>)
    ensures r.Ok? <==> var f := FindByIdAndMerchantId(t, intentId, merchantId); f.Some? && f.value.status == SUCCEEDED
    ensures r.Ok? ==> FindByIdAndMerchantId(t, intentId, merchantId) == Some(r.value)
    ensures FindByIdAndMerchantId(t, intentId, merchantId).None? <==> r == Err(INTENT_NOT_FOUND)
  {
    match FindByIdAndMerchantId(t, intentId, merchantId)
    case None => Err(INTENT_NOT_FOUND)
    case Some(pi) => if pi.status != SUCCEEDED then Err(REFUND_REFUSED) else Ok(pi)
  }

  /** The command the adapter receives. */
  function RefundCommandFor(env: Env, pi: PaymentIntent, merchantId: string, reason: Option<string>): RefundCommand {
    RefundCommand(pi.provider, merchantId, pi.providerRef, pi.amountMinor, pi.currency, reason,
                  Some(ProviderConfigOf(env, merchantId, pi.provider)))
  }

  /** A refunded intent is PROCESSING, so refunding it again is refused. */
  lemma SecondRefundRefused(t: Table, merchantId: string, intentId: string)
    requires UniqueIds(t) && RefundGuard(t, merchantId, intentId).Ok?
    ensures var pi := RefundGuard(t, merchantId, intentId).value;
            RefundGuard(Saved(t, pi.(status := PROCESSING)), merchantId, intentId) == Err(REFUND_REFUSED)
  {
    var pi := RefundGuard(t, merchantId, intentId).value;
    SaveThenFind(t, pi.(status := PROCESSING));
  }

  // ---------------------------------------------------------------------
  // Demo operations

  /** `isFinalStatus` */
  predicate IsFinalStatus(s: PaymentStatus) {
    s == SUCCEEDED || s == FAILED || s == REFUNDED
  }

  /** `requireDemoIntent`: the merchant's intent, routed to DEMO. */
  function RequireDemoIntent(t: Table, merchantId: string, intentId: string): (r: Result<PaymentIntent, Failure>)
    ensures r.Ok? <==> var f := FindByIdAndMerchantId(t, intentId, merchantId); f.Some? && f.value.provider == DEMO
    ensures r.Ok? ==> FindByIdAndMerchantId(t, intentId, merchantId) == Some(r.value)
    ensures r.Err? ==> r.error == INTENT_NOT_FOUND || r.error == NOT_DEMO
  {
    match FindByIdAndMerchantId(t, intentId, merchantId)
    case None => Err(INTENT_NOT_FOUND)
    case Some(pi) => if pi.provider != DEMO then Err(NOT_DEMO) else Ok(pi)
  }

  datatype DemoAction = Authorize(outcome: Option<string>) | Cancel

  /** An authorize succeeds unless the outcome says otherwise: null, blank
      and "approved" in any case approve. */
  predicate Approved(outcome: Option<string>) {
    outcome.None? || IsBlank(outcome.value) || EqualsIgnoreCase("approved", outcome.value)
  }

  lemma ApprovedExamples()
    ensures Approved(None) && Approved(Some("")) && Approved(Some(" ")) && Approved(Some("APPROVED"))
    ensures !Approved(Some("declined")) && !Approved(Some("approve"))
  {
    assert UpperChar('d') != UpperChar('a');
    assert IsWhitespace('d') == false;
  }

  /** The status a demo action leaves: a final status stays; otherwise an
      approving authorize succeeds and anything else fails. */
  function DemoStatus(status: PaymentStatus, action: DemoAction): (s: PaymentStatus)
    ensures IsFinalStatus(s)
    ensures IsFinalStatus(status) ==> s == status
    ensures !IsFinalStatus(status) ==> (s == SUCCEEDED <==> action.Authorize? && Approved(action.outcome))
    ensures !IsFinalStatus(status) ==> (s == FAILED <==> !(action.Authorize? && Approved(action.outcome)))
  {
    if IsFinalStatus(status) then status
    else if action.Authorize? && Approved(action.outcome) then SUCCEEDED else FAILED
  }

  /** The payload of the DEMO payment event. */
  function DemoPayload(action: DemoAction): string {
    match action
    case Authorize(_) =>
      "{\"action\":\"authorize\",\"outcome\":\"" + (if Approved(action.outcome) then "approved" else "declined") + "\"}"
    case Cancel => "{\"action\":\"cancel\"}"
  }

  /** The DEMO payment event a demo action records. */
  function DemoEvent(pi: PaymentIntent, action: DemoAction, now: Millis): PaymentEvent {
    PaymentEvent(DEMO, Some(pi.id), if DemoStatus(pi.status, action) == SUCCEEDED then PAYMENT_SUCCEEDED else PAYMENT_FAILED,
                 Some(OtherPayload(DemoPayload(action))), now)
  }

  lemma SaveTwiceNew(t: Table, a: PaymentIntent, b: PaymentIntent)
    requires UniqueIds(t) && a.id == b.id && FindById(t, a.id).None?
    ensures Saved(Saved(t, a), b) == Saved(t, b)
  {
    SaveNew(t, a);
    SaveNew(t, b);
    SaveThenFind(t, a);
    SaveExisting(t + [a], b, |t|);
    assert (t + [a])[|t| := b] == t + [b];
  }

  lemma SaveTwiceExisting(t: Table, a: PaymentIntent, b: PaymentIntent, k: int)
    requires UniqueIds(t) && a.id == b.id && 0 <= k < |t| && t[k].id == a.id
    ensures Saved(Saved(t, a), b) == Saved(t, b)
  {
    SaveExisting(t, a, k);
    SaveExisting(t, b, k);
    SaveThenFind(t, a);
    SaveExisting(t[k := a], b, k);
    assert t[k := a][k := b] == t[k := b];
  }

  /** Saving twice under one id is saving the second row. */
  lemma SaveTwice(t: Table, a: PaymentIntent, b: PaymentIntent)
    requires UniqueIds(t) && a.id == b.id
    ensures Saved(Saved(t, a), b) == Saved(t, b)
  {
    if FindById(t, a.id).None? {
      SaveTwiceNew(t, a, b);
    } else {
      var k :| 0 <= k < |t| && t[k].id == a.id;
      SaveTwiceExisting(t, a, b, k);
    }
  }

  /** Demo actions settle: after one has moved an intent, the intent is
      final, so a second action returns it unchanged. */
  lemma DemoSettles(t: Table, merchantId: string, intentId: string, action: DemoAction)
    requires UniqueIds(t) && RequireDemoIntent(t, merchantId, intentId).Ok?
    ensures var pi := RequireDemoIntent(t, merchantId, intentId).value;
            var fin := pi.(status := DemoStatus(pi.status, action));
            && RequireDemoIntent(Saved(t, fin), merchantId, intentId) == Ok(fin)
            && IsFinalStatus(fin.status)
  {
    var pi := RequireDemoIntent(t, merchantId, intentId).value;
    SaveThenFind(t, pi.(status := DemoStatus(pi.status, action)));
  }

  // ---------------------------------------------------------------------
  // The service

  /** Every saved decision names a saved intent (the foreign key the
      intent is flushed first to satisfy). */
  predicate DecisionsReferenceIntents(ds: seq<Decision>, t: Table) {
    forall k :: 0 <= k < |ds| ==> FindById(t, ds[k].paymentIntentId).Some?
  }

  /** The service with the tables it writes: intents (shared), routing
      decisions, checkout configurations by intent id, idempotency records,
      and the health tracker (shared). */
  class PaymentIntentService {
    const env: Env
    const store: IntentStore
    const health: HealthTracker
    var decisions: seq<Decision>
    var checkoutConfigs: map<string, Checkout>
    var idempotency: IdempotencyTable

    ghost predicate Valid()
      reads this, store, health
    {
      store.Valid() && health.Valid() && DecisionsReferenceIntents(decisions, store.table)
    }

    constructor (env: Env, store: IntentStore, health: HealthTracker)
      requires store.Valid() && health.Valid() && store.table == []
      ensures Valid()
      ensures this.env == env && this.store == store && this.health == health
      ensures decisions == [] && checkoutConfigs == map[] && idempotency == map[]
    {
      this.env := env;
      this.store := store;
      this.health := health;
      decisions := [];
      checkoutConfigs := map[];
      idempotency := map[];
    }

    /** The state after a plan's writes on top of the intents `base`, the
        decisions `d0`, the event log `e0` extended by `s0`, rows that were
        `r0` before `s0`, and the configurations `c0`. */
    ghost predicate Shows(p: Plan, base: Table, d0: seq<Decision>, e0: seq<PaymentEvent>, s0: seq<PaymentEvent>,
                          r0: map<Provider, HealthRow>, c0: map<string, Checkout>, id: string, now: Millis)
      requires RowsOk(r0)
      reads this, store, health
    {
      && store.table == (if p.intent.Some? then base + [p.intent.value] else base)
      && decisions == d0 + p.decisions
      && health.events == e0 + (s0 + p.sessions)
      && health.rows == RowsAfterSessions(r0, e0, s0 + p.sessions, now)
      && checkoutConfigs == (if p.config.Some? then c0[id := p.config.value] else c0)
    }

    /** `routingDecisionRepository.save` */
    method SaveDecision(dec: Decision)
      requires Valid() && FindById(store.table, dec.paymentIntentId).Some?
      modifies this`decisions
      ensures Valid()
      ensures decisions == old(decisions) + [dec]
    {
      decisions := decisions + [dec];
    }

    /** `paymentIntentRepository.save` */
    method SaveIntent(pi: PaymentIntent)
      requires Valid()
      modifies store
      ensures Valid()
      ensures store.table == Saved(old(store.table), pi)
      ensures FindById(store.table, pi.id) == Some(pi)
    {
      store.Save(pi);
      forall k | 0 <= k < |decisions| ensures FindById(store.table, decisions[k].paymentIntentId).Some? {
        if decisions[k].paymentIntentId != pi.id {
          assert FindById(store.table, decisions[k].paymentIntentId) == FindById(old(store.table), decisions[k].paymentIntentId);
        }
      }
    }

    /** Saving the new row of the intent last appended to `base`. */
    method Resave(ghost base: Table, ghost prev: PaymentIntent, pi: PaymentIntent)
      requires Valid() && store.table == base + [prev] && prev.id == pi.id
      modifies store
      ensures Valid() && store.table == base + [pi]
    {
      SaveExisting(base + [prev], pi, |base|);
      SaveIntent(pi);
      assert (base + [prev])[|base| := pi] == base + [pi];
    }

    /** `recordCreateSessionOutcome`, one more event on top of `e0 + s`. */
    method RecordSession(ghost e0: seq<PaymentEvent>, ghost r0: map<Provider, HealthRow>, ghost s: seq<PaymentEvent>,
                         p: Provider, intentId: string, success: bool, latencyMs: int, errorType: Option<string>, now: Millis)
      requires Valid() && RowsOk(r0)
      requires health.events == e0 + s && health.rows == RowsAfterSessions(r0, e0, s, now)
      modifies health
      ensures Valid()
      ensures var e := SessionEvent(p, intentId, success, SessionPayloadAsWritten(latencyMs, success, errorType), now);
              health.events == e0 + (s + [e]) && health.rows == RowsAfterSessions(r0, e0, s + [e], now)
    {
      var e := SessionEvent(p, intentId, success, SessionPayloadAsWritten(latencyMs, success, errorType), now);
      SessionRecorded(r0, e0, s, p, intentId, success, SessionPayloadAsWritten(latencyMs, success, errorType), now);
      AppendAssoc(e0, s, [e]);
      health.RecordCreateSessionOutcome(p, intentId, success, latencyMs, errorType, now);
    }

    /** The success path: reference and REQUIRES_PAYMENT_METHOD saved, the
        configuration stored without the latency entry. */
    method Finish(ghost base: Table, pi: PaymentIntent, session: CreateSessionResult) returns (r: Result<Created, Failure>)
      requires Valid() && store.table == base + [pi]
      modifies store, this`checkoutConfigs
      ensures Valid()
      ensures var fin := pi.(providerRef := Some(session.providerRef), status := REQUIRES_PAYMENT_METHOD);
              var config := session.checkoutConfig - {LATENCY_KEY};
              && store.table == base + [fin]
              && checkoutConfigs == old(checkoutConfigs)[pi.id := config]
              && r == Ok(Created(fin, config))
    {
      var fin := pi.(providerRef := Some(session.providerRef), status := REQUIRES_PAYMENT_METHOD);
      Resave(base, pi, fin);
      var config := session.checkoutConfig - {LATENCY_KEY};
      checkoutConfigs := checkoutConfigs[pi.id := config];
      r := Ok(Created(fin, config));
    }

    /** The fallback after an eligible failure of `pi`'s provider. */
    method Fallback(d: Draws, pi: PaymentIntent, idempotencyKey: Option<string>, excluded: set<Provider>,
                    ghost base: Table, ghost e0: seq<PaymentEvent>, ghost s0: seq<PaymentEvent>, ghost r0: map<Provider, HealthRow>)
      returns (r: Result<Created, Failure>)
      requires Valid() && RowsOk(r0) && store.table == base + [pi]
      requires health.events == e0 + s0 && health.rows == RowsAfterSessions(r0, e0, s0, d.now)
      modifies this`decisions, this`checkoutConfigs, store, health
      ensures Valid()
      ensures var p := FallbackPlan(env, d, pi, idempotencyKey, excluded);
              Shows(p, base, old(decisions), e0, s0, r0, old(checkoutConfigs), pi.id, d.now) && r == p.result
    {
      ghost var p := FallbackPlan(env, d, pi, idempotencyKey, excluded);
      AppendEmpty(decisions);
      AppendEmpty(s0);
      if env.available(pi.merchantId, excluded) == [] {
        assert p == Abandoned(pi, [], [], BOTH_FAILED);
        Resave(base, pi, pi.(status := FAILED));
        return Err(Api(BAD_GATEWAY, BOTH_FAILED));
      }
      var routed := env.decide(pi.merchantId, pi.id, pi.amountMinor, pi.currency, AUTO, excluded);
      if routed.Err? {
        assert p == Abandoned(pi, [], [], BOTH_FAILED);
        Resave(base, pi, pi.(status := FAILED));
        return Err(Api(BAD_GATEWAY, BOTH_FAILED));
      }
      var fr := routed.value;
      var second := DecisionRepository.RoutingDecision(d.fallbackDecisionId, pi.id, pi.merchantId, fr.provider,
                                                       fr.scoresJson, INSTANT_FALLBACK, d.now);
      assert FindById(store.table, pi.id).Some? by {
        assert store.table[|base|].id == pi.id;
      }
      var retry := pi.(provider := fr.provider, routingDecisionId := Some(d.fallbackDecisionId),
                       routingReasonCode := Some(INSTANT_FALLBACK));
      ghost var rp := RetryPlan(env, d, retry, idempotencyKey);
      assert p == rp.(decisions := [second]);
      assert rp.decisions == [];
      AppendEmpty(decisions + [second]);
      SaveDecision(second);
      Resave(base, pi, retry);
      r := Retry(d, retry, idempotencyKey, base, e0, s0, r0);
    }

    /** The second session call. */
    method Retry(d: Draws, retry: PaymentIntent, idempotencyKey: Option<string>,
                 ghost base: Table, ghost e0: seq<PaymentEvent>, ghost s0: seq<PaymentEvent>, ghost r0: map<Provider, HealthRow>)
      returns (r: Result<Created, Failure>)
      requires Valid() && RowsOk(r0) && store.table == base + [retry]
      requires health.events == e0 + s0 && health.rows == RowsAfterSessions(r0, e0, s0, d.now)
      modifies this`checkoutConfigs, store, health
      ensures Valid()
      ensures var p := RetryPlan(env, d, retry, idempotencyKey);
              Shows(p, base, old(decisions), e0, s0, r0, old(checkoutConfigs), retry.id, d.now) && r == p.result
    {
      ghost var p := RetryPlan(env, d, retry, idempotencyKey);
      assert p.decisions == [];
      AppendEmpty(decisions);
      var session := SessionFor(env, retry, idempotencyKey, d.fallbackLatencyMs);
      if session.Ok? {
        var latency := LatencyOf(session.value.checkoutConfig);
        assert p.sessions == [SessionEvent(retry.provider, retry.id, true, SessionPayloadAsWritten(latency, true, None), d.now)];
        RecordSession(e0, r0, s0, retry.provider, retry.id, true, latency, None, d.now);
        r := Finish(base, retry, session.value);
      } else {
        assert p.config.None?;
        if session.error.ProviderFailure? {
          var kind := session.error.kind;
          assert p.sessions == [SessionEvent(retry.provider, retry.id, false, SessionPayloadAsWritten(0, false, Some(ErrorTypeName(kind))), d.now)];
          RecordSession(e0, r0, s0, retry.provider, retry.id, false, 0, Some(ErrorTypeName(kind)), d.now);
        } else {
          assert p.sessions == [];
          AppendEmpty(s0);
        }
        Resave(base, retry, retry.(status := FAILED));
        r := Err(Api(BAD_GATEWAY, BOTH_FAILED));
      }
    }

    /** The first session call and what follows it. */
    method Attempt(d: Draws, pi: PaymentIntent, idempotencyKey: Option<string>, excluded: set<Provider>, ghost base: Table)
      returns (r: Result<Created, Failure>)
      requires Valid() && store.table == base + [pi]
      modifies this`decisions, this`checkoutConfigs, store, health
      ensures Valid()
      ensures var p := AttemptPlan(env, d, pi, idempotencyKey, excluded);
              Shows(p, base, old(decisions), old(health.events), [], old(health.rows), old(checkoutConfigs), pi.id, d.now)
              && r == p.result
    {
      ghost var e0, r0 := health.events, health.rows;
      ghost var p := AttemptPlan(env, d, pi, idempotencyKey, excluded);
      AppendEmpty(e0);
      AppendEmpty(decisions);
      var session := SessionFor(env, pi, idempotencyKey, d.latencyMs);
      if session.Ok? {
        var latency := LatencyOf(session.value.checkoutConfig);
        assert p.decisions == [];
        assert p.sessions == [SessionEvent(pi.provider, pi.id, true, SessionPayloadAsWritten(latency, true, None), d.now)];
        AppendEmpty(p.sessions);
        RecordSession(e0, r0, [], pi.provider, pi.id, true, latency, None, d.now);
        r := Finish(base, pi, session.value);
        return;
      }
      var f := session.error;
      if !f.ProviderFailure? {
        assert p == Plan(Some(pi), [], [], None, Err(f));
        assert p.sessions == [];
        AppendEmpty(p.sessions);
        return Err(f);
      }
      assert p == AfterFailure(env, d, pi, idempotencyKey, excluded, f.kind);
      r := Failed(d, pi, idempotencyKey, excluded, f.kind, base);
    }

    /** The first call failed with a `ProviderException` of `kind`. */
    method Failed(d: Draws, pi: PaymentIntent, idempotencyKey: Option<string>, excluded: set<Provider>,
                  kind: ProviderErrorType, ghost base: Table)
      returns (r: Result<Created, Failure>)
      requires Valid() && store.table == base + [pi]
      modifies this`decisions, this`checkoutConfigs, store, health
      ensures Valid()
      ensures var p := AfterFailure(env, d, pi, idempotencyKey, excluded, kind);
              Shows(p, base, old(decisions), old(health.events), [], old(health.rows), old(checkoutConfigs), pi.id, d.now)
              && r == p.result
    {
      ghost var e0, r0 := health.events, health.rows;
      ghost var p := AfterFailure(env, d, pi, idempotencyKey, excluded, kind);
      AppendEmpty(e0);
      AppendEmpty(decisions);
      var failed := SessionEvent(pi.provider, pi.id, false, SessionPayloadAsWritten(0, false, Some(ErrorTypeName(kind))), d.now);
      assert failed == FailedEvent(pi.provider, pi.id, kind, d.now);
      AppendEmpty([failed]);
      if !Eligible(kind) {
        assert p == Abandoned(pi, [], [failed], PROVIDER_FAILED);
        assert p.sessions == [failed];
        AppendEmpty(p.sessions);
        RecordSession(e0, r0, [], pi.provider, pi.id, false, 0, Some(ErrorTypeName(kind)), d.now);
        Resave(base, pi, pi.(status := FAILED));
        return Err(Api(BAD_GATEWAY, PROVIDER_FAILED));
      }
      ghost var fb := FallbackPlan(env, d, pi, idempotencyKey, excluded + {pi.provider});
      assert p == fb.(sessions := [failed] + fb.sessions);
      assert p.sessions == [failed] + fb.sessions;
      AppendEmpty(p.sessions);
      RecordSession(e0, r0, [], pi.provider, pi.id, false, 0, Some(ErrorTypeName(kind)), d.now);
      r := Fallback(d, pi, idempotencyKey, excluded + {pi.provider}, base, e0, [failed], r0);
    }

    /** The first writes of `createInternal`: the intent without a decision,
        the first decision, then the intent pointing at it. */
    method OpenIntent(pi: PaymentIntent, entry: PaymentIntent, first: Decision, ghost base: Table)
      requires Valid() && store.table == base && FindById(base, pi.id).None?
      requires entry.id == pi.id && first.paymentIntentId == pi.id
      modifies this`decisions, store
      ensures Valid() && store.table == base + [entry] && decisions == old(decisions) + [first]
    {
      SaveNew(base, pi);
      SaveIntent(pi);
      SaveDecision(first);
      Resave(base, pi, entry);
    }

    /** `createInternal`, for a fresh intent id. */
    method CreateInternal(merchantId: string, d: Draws, root: string, attempt: int, cmd: CreateCommand,
                          idempotencyKey: Option<string>, excluded: set<Provider>)
      returns (r: Result<Created, Failure>)
      requires Valid() && FindById(store.table, d.intentId).None?
      modifies this`decisions, this`checkoutConfigs, store, health
      ensures Valid()
      ensures var p := CreatePlan(env, d, merchantId, root, attempt, cmd, idempotencyKey, excluded);
              Shows(p, old(store.table), old(decisions), old(health.events), [], old(health.rows), old(checkoutConfigs), d.intentId, d.now)
              && r == p.result
    {
      var routing := FirstRouting(env, d, merchantId, cmd, excluded);
      if routing.Err? {
        AppendEmpty(health.events);
        return Err(routing.error);
      }
      ghost var base, d0 := store.table, decisions;
      var entry := Opened(merchantId, d, root, attempt, cmd, idempotencyKey, routing.value);
      var pi := entry.(routingDecisionId := None);
      var first := DecisionRepository.RoutingDecision(d.decisionId, pi.id, merchantId, routing.value.provider,
                                                      routing.value.scoresJson, routing.value.reasonCode, d.now);
      ghost var rest := AttemptPlan(env, d, entry, idempotencyKey, excluded);
      ghost var p := CreatePlan(env, d, merchantId, root, attempt, cmd, idempotencyKey, excluded);
      assert p == rest.(decisions := [first] + rest.decisions);
      OpenIntent(pi, entry, first, base);
      r := Attempt(d, entry, idempotencyKey, excluded, base);
      AppendAssoc(d0, [first], rest.decisions);
      assert decisions == d0 + p.decisions;
    }

    /** `create`: an unknown merchant is refused; a known idempotency key
        replays the recorded intent; otherwise a fresh intent is created,
        and the key recorded with the request's hash once it succeeded. */
    method Create(merchantId: string, cmd: CreateCommand, idempotencyKey: Option<string>, d: Draws)
      returns (r: Result<Created, Failure>)
      requires Valid() && FindById(store.table, d.intentId).None?
      modifies this, store, health
      ensures Valid()
      ensures merchantId !in env.merchants ==> r == Err(MERCHANT_NOT_FOUND) && unchanged(this, store, health)
      ensures merchantId in env.merchants && Replays(old(idempotency), merchantId, idempotencyKey) ==>
                && r == Replay(old(store.table), old(checkoutConfigs), merchantId,
                               old(idempotency)[IdempotencyKey(merchantId, IDEMPOTENCY_ENDPOINT, idempotencyKey.value)].paymentIntentId)
                && unchanged(this, store, health)
      ensures merchantId in env.merchants && !Replays(old(idempotency), merchantId, idempotencyKey) ==>
                var p := CreatePlan(env, d, merchantId, d.intentId, 0, cmd, idempotencyKey, {});
                && Shows(p, old(store.table), old(decisions), old(health.events), [], old(health.rows), old(checkoutConfigs), d.intentId, d.now)
                && r == p.result
                && idempotency == if r.Ok? && !IsNullOrBlank(idempotencyKey)
                                  then old(idempotency)[IdempotencyKey(merchantId, IDEMPOTENCY_ENDPOINT, idempotencyKey.value)
                                                        := IdempotencyRecord(r.value.intent.id, RequestHash(env, cmd))]
                                  else old(idempotency)
    {
      if merchantId !in env.merchants {
        return Err(MERCHANT_NOT_FOUND);
      }
      if !IsNullOrBlank(idempotencyKey) {
        var key := IdempotencyKey(merchantId, IDEMPOTENCY_ENDPOINT, idempotencyKey.value);
        if key in idempotency {
          return Replay(store.table, checkoutConfigs, merchantId, idempotency[key].paymentIntentId);
        }
      }
      r := CreateInternal(merchantId, d, d.intentId, 0, cmd, idempotencyKey, {});
      if r.Ok? && !IsNullOrBlank(idempotencyKey) {
        idempotency := idempotency[IdempotencyKey(merchantId, IDEMPOTENCY_ENDPOINT, idempotencyKey.value)
                                   := IdempotencyRecord(r.value.intent.id, RequestHash(env, cmd))];
      }
    }

    /** `reroute`: after the checks, a new intent on the same root with the
        next attempt number and no idempotency key. */
    method Reroute(merchantId: string, intentId: string, preference: Option<Preference>, d: Draws)
      returns (r: Result<Created, Failure>)
      requires Valid() && FindById(store.table, d.intentId).None?
      modifies this`decisions, this`checkoutConfigs, store, health
      ensures Valid()
      ensures var g := RerouteGuard(env, old(store.table), merchantId, intentId);
              && (g.Err? ==> r == Err(g.error) && unchanged(this, store, health))
              && (g.Ok? ==>
                    var p := ReroutePlan(env, d, merchantId, g.value, preference);
                    Shows(p, old(store.table), old(decisions), old(health.events), [], old(health.rows), old(checkoutConfigs), d.intentId, d.now)
                    && r == p.result)
    {
      if merchantId !in env.merchants {
        return Err(MERCHANT_NOT_FOUND);
      }
      var found := FindByIdAndMerchantId(store.table, intentId, merchantId);
      if found.None? {
        return Err(INTENT_NOT_FOUND);
      }
      var existing := found.value;
      if !(existing.status == FAILED || existing.status == REQUIRES_PAYMENT_METHOD) {
        return Err(REROUTE_REFUSED);
      }
      var root := if existing.rootPaymentIntentId.None? then existing.id else existing.rootPaymentIntentId.value;
      var count := CountByRoot(store.table, root);
      if count >= MAX_ATTEMPTS_PER_ROOT {
        return Err(TOO_MANY_ATTEMPTS);
      }
      var pref := preference.GetOr(AUTO);
      var cmd := CreateCommand(existing.amountMinor, existing.currency, existing.description, Some(pref));
      var excluded := if pref == AUTO then {existing.provider} else {};
      r := CreateInternal(merchantId, d, root, count, cmd, None, excluded);
    }

    /** `refund`: a SUCCEEDED intent of the merchant is refunded through its
        provider and saved PROCESSING; a failing adapter call saves
        nothing. */
    method Refund(merchantId: string, intentId: string, reason: Option<string>) returns (r: Result<RefundView, Failure>)
      requires Valid()
      modifies store
      ensures Valid()
      ensures var g := RefundGuard(old(store.table), merchantId, intentId);
              && (g.Err? ==> r == Err(g.error) && store.table == old(store.table))
              && (g.Ok? ==>
                    var res := env.refund(RefundCommandFor(env, g.value, merchantId, reason));
                    && (res.Err? ==> r == Err(res.error) && store.table == old(store.table))
                    && (res.Ok? ==> store.table == Saved(old(store.table), g.value.(status := PROCESSING))
                                    && r == Ok(RefundView(intentId, PROCESSING, g.value.provider, res.value.providerRefundRef))))
    {
      var g := RefundGuard(store.table, merchantId, intentId);
      if g.Err? {
        return Err(g.error);
      }
      var pi := g.value;
      var res := env.refund(RefundCommandFor(env, pi, merchantId, reason));
      if res.Err? {
        return Err(res.error);
      }
      pi := pi.(status := PROCESSING);
      SaveIntent(pi);
      r := Ok(RefundView(pi.id, pi.status, pi.provider, res.value.providerRefundRef));
    }

    /** `demoAuthorize` and `demoCancel`: a DEMO intent not yet final is
        saved PROCESSING and then settled, and the outcome recorded as a
        DEMO payment event; a final one is returned as it is. */
    method DemoAct(merchantId: string, intentId: string, action: DemoAction, now: Millis) returns (r: Result<PaymentIntent, Failure>)
      requires Valid()
      modifies store, health
      ensures Valid()
      ensures var g := RequireDemoIntent(old(store.table), merchantId, intentId);
              && (g.Err? ==> r == Err(g.error) && unchanged(store, health))
              && (g.Ok? && IsFinalStatus(g.value.status) ==> r == Ok(g.value) && unchanged(store, health))
              && (g.Ok? && !IsFinalStatus(g.value.status) ==>
                    var fin := g.value.(status := DemoStatus(g.value.status, action));
                    && store.table == Saved(old(store.table), fin)
                    && health.events == old(health.events) + [DemoEvent(g.value, action, now)]
                    && health.rows == old(health.rows)[DEMO := Recomputed(RowOf(old(health.rows), DEMO, now), health.events, DEMO, None, now)]
                    && r == Ok(fin))
    {
      var g := RequireDemoIntent(store.table, merchantId, intentId);
      if g.Err? {
        return Err(g.error);
      }
      var pi := g.value;
      if IsFinalStatus(pi.status) {
        return Ok(pi);
      }
      var approved := action.Authorize? && Approved(action.outcome);
      ghost var t0 := store.table;
      if action.Authorize? {
        SaveIntent(pi.(status := PROCESSING));
        SaveIntent(pi.(status := if approved then SUCCEEDED else FAILED));
        SaveTwice(t0, pi.(status := PROCESSING), pi.(status := if approved then SUCCEEDED else FAILED));
      } else {
        SaveIntent(pi.(status := FAILED));
      }
      var fin := pi.(status := if approved then SUCCEEDED else FAILED);
      health.RecordPaymentOutcome(DEMO, pi.id, approved, Some(OtherPayload(DemoPayload(action))), now);
      r := Ok(fin);
    }
  }
}
