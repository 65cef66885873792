/**
 * `ProviderAvailabilityService`: a per-provider verdict (configured,
 * enabled, healthy, reason) resolved in a fixed order, and the list of
 * providers a merchant can be routed to.
 */
module Availability {
  import opened Wrappers
  import opened Domain
  import opened JavaString
  import opened Settings

  /** The listing order. */
  const ORDERED: seq<Provider> := [STRIPE, ADYEN, PAYPAL, TRANSBANK, DEMO]

  /** Position in the listing order (MASTERCARD is not listed). */
  function Rank(p: Provider): nat {
    match p
    case STRIPE => 0
    case ADYEN => 1
    case PAYPAL => 2
    case TRANSBANK => 3
    case DEMO => 4
    case MASTERCARD => 5
  }

  lemma RankIsPosition(i: int)
    requires 0 <= i < |ORDERED|
    ensures Rank(ORDERED[i]) == i
  {
  }

  datatype ProviderStatus = ProviderStatus(
    provider: Provider,
    configured: bool,
    enabled: bool,
    healthy: bool,
    reason: string)

  /** `ProviderStatus.available()` */
  predicate Available(s: ProviderStatus) {
    s.configured && s.enabled && s.healthy
  }

  datatype ConfigSource = MERCHANT | GLOBAL

  datatype ConfigState = ConfigState(configured: bool, enabled: bool, source: ConfigSource)

  /** What the service consults: the providers with an adapter, the
      merchant's stored configurations (provider to enabled flag), the
      global properties, and the health tracker's effective circuit state. */
  datatype Context = Context(
    supported: set<Provider>,
    merchantConfigs: map<Provider, bool>,
    props: Properties,
    circuit: Provider -> CircuitState)

  predicate NonBlank(s: Option<string>) {
    s.Some? && !IsBlank(s.value)
  }

  predicate IsStripeConfigured(props: Properties) {
    props.Some? && props.value.stripe.Some?
    && NonBlank(props.value.stripe.value.secretKey) && NonBlank(props.value.stripe.value.publishableKey)
  }

  predicate IsAdyenConfigured(props: Properties) {
    props.Some? && props.value.adyen.Some?
    && NonBlank(props.value.adyen.value.apiKey) && NonBlank(props.value.adyen.value.merchantAccount)
    && NonBlank(props.value.adyen.value.clientKey)
  }

  /** `resolveConfigState`: a merchant configuration, when present, is
      configured with its own flag; otherwise only STRIPE and ADYEN can be
      configured globally, and then they are also enabled. */
  function ResolveConfigState(ctx: Context, p: Provider): (r: ConfigState)
    ensures p in ctx.merchantConfigs ==> r == ConfigState(true, ctx.merchantConfigs[p], MERCHANT)
    ensures p !in ctx.merchantConfigs ==>
      (r.source == GLOBAL && r.configured == r.enabled
       && (r.configured <==> (p == STRIPE && IsStripeConfigured(ctx.props)) || (p == ADYEN && IsAdyenConfigured(ctx.props))))
  {
    if p in ctx.merchantConfigs then ConfigState(true, ctx.merchantConfigs[p], MERCHANT)
    else
      var globalConfigured := match p
        case STRIPE => IsStripeConfigured(ctx.props)
        case ADYEN => IsAdyenConfigured(ctx.props)
        case _ => false;
      ConfigState(globalConfigured, globalConfigured, GLOBAL)
  }

  /** `resolveStatus`: DEMO, then the unimplemented providers, then the
      adapter check, then configuration, then health. */
  function ResolveStatus(ctx: Context, p: Provider): (r: ProviderStatus)
    ensures r.provider == p
    ensures p == DEMO ==> r == ProviderStatus(DEMO, true, true, true, "DEMO")
    ensures p == PAYPAL || p == TRANSBANK ==> r == ProviderStatus(p, false, false, false, "NOT_IMPLEMENTED")
    ensures p != DEMO && p != PAYPAL && p != TRANSBANK && p !in ctx.supported
      ==> r == ProviderStatus(p, false, false, false, "NOT_SUPPORTED")
    ensures Available(r) <==>
      (p == DEMO
       || (p != PAYPAL && p != TRANSBANK && p in ctx.supported
           && ResolveConfigState(ctx, p).configured && ResolveConfigState(ctx, p).enabled && ctx.circuit(p) != OPEN))
    ensures r.reason == "OK" <==> Available(r) && p != DEMO
    ensures r.reason == "UNHEALTHY" <==> r.configured && r.enabled && !r.healthy
  {
    if p == DEMO then ProviderStatus(p, true, true, true, "DEMO")
    else if p == PAYPAL || p == TRANSBANK then ProviderStatus(p, false, false, false, "NOT_IMPLEMENTED")
    else if p !in ctx.supported then ProviderStatus(p, false, false, false, "NOT_SUPPORTED")
    else
      var configState := ResolveConfigState(ctx, p);
      if !configState.configured then ProviderStatus(p, false, false, false, "NOT_CONFIGURED")
      else if !configState.enabled then ProviderStatus(p, true, false, false, "DISABLED")
      else
        var healthy := ctx.circuit(p) != OPEN;
        ProviderStatus(p, true, true, healthy, if healthy then "OK" else "UNHEALTHY")
  }

  /** For an implemented provider with an adapter, the verdicts come in
      order: not configured, disabled, then healthy or not. */
  lemma ResolutionOrder(ctx: Context, p: Provider)
    requires p in ctx.supported && p != DEMO && p != PAYPAL && p != TRANSBANK
    ensures var cs := ResolveConfigState(ctx, p); var r := ResolveStatus(ctx, p);
      (!cs.configured ==> r == ProviderStatus(p, false, false, false, "NOT_CONFIGURED"))
      && (cs.configured && !cs.enabled ==> r == ProviderStatus(p, true, false, false, "DISABLED"))
      && (cs.configured && cs.enabled ==> r.configured && r.enabled && (r.healthy <==> ctx.circuit(p) != OPEN))
  {
  }

  /** `getStatus`: nothing for a null provider. */
  function GetStatus(ctx: Context, p: Option<Provider>): (r: Option<ProviderStatus>)
    ensures r.None? <==> p.None?
    ensures r.Some? ==> r.value == ResolveStatus(ctx, p.value)
  {
    if p.None? then None else Some(ResolveStatus(ctx, p.value))
  }

  /** `isProviderAvailable`: DEMO always; any other provider when it is
      implemented, has an adapter, is configured and enabled, and its
      circuit is not OPEN; never a null provider. */
  predicate IsProviderAvailable(ctx: Context, p: Option<Provider>)
    ensures IsProviderAvailable(ctx, p) <==>
      (p.Some? &&
       (p.value == DEMO
        || (p.value != PAYPAL && p.value != TRANSBANK && p.value in ctx.supported
            && ResolveConfigState(ctx, p.value).configured && ResolveConfigState(ctx, p.value).enabled
            && ctx.circuit(p.value) != OPEN)))
  {
    var s := GetStatus(ctx, p);
    s.Some? && Available(s.value)
  }

  /** Without a merchant configuration, STRIPE and ADYEN with an adapter
      and a circuit that is not OPEN are available exactly when every one
      of their global keys is present and not blank. */
  lemma GlobalKeysDecide(ctx: Context, p: Provider)
    requires p == STRIPE || p == ADYEN
    requires p in ctx.supported && p !in ctx.merchantConfigs && ctx.circuit(p) != OPEN
    ensures p == STRIPE ==> (IsProviderAvailable(ctx, Some(p)) <==>
      ctx.props.Some? && ctx.props.value.stripe.Some?
      && !IsNullOrBlank(ctx.props.value.stripe.value.secretKey) && !IsNullOrBlank(ctx.props.value.stripe.value.publishableKey))
    ensures p == ADYEN ==> (IsProviderAvailable(ctx, Some(p)) <==>
      ctx.props.Some? && ctx.props.value.adyen.Some?
      && !IsNullOrBlank(ctx.props.value.adyen.value.apiKey) && !IsNullOrBlank(ctx.props.value.adyen.value.merchantAccount)
      && !IsNullOrBlank(ctx.props.value.adyen.value.clientKey))
  {
  }

  /** `listForMerchant`: one status per provider, in listing order. */
  method ListForMerchant(ctx: Context) returns (statuses: seq<ProviderStatus>)
    ensures |statuses| == |ORDERED|
    ensures forall i :: 0 <= i < |ORDERED| ==> statuses[i] == ResolveStatus(ctx, ORDERED[i])
  {
    statuses := [];
    for i := 0 to |ORDERED|
      invariant |statuses| == i
      invariant forall k :: 0 <= k < i ==> statuses[k] == ResolveStatus(ctx, ORDERED[k])
    {
      statuses := statuses + [ResolveStatus(ctx, ORDERED[i])];
    }
  }

  /** The routable providers among `ps`, in order: not DEMO, available and
      not excluded. */
  function Routable(ctx: Context, ps: seq<Provider>, excluded: set<Provider>): (r: seq<Provider>)
    ensures |r| <= |ps|
  {
    if ps == [] then []
    else
      var p := ps[0];
      (if p != DEMO && Available(ResolveStatus(ctx, p)) && p !in excluded then [p] else []) + Routable(ctx, ps[1..], excluded)
  }

  lemma {:induction false} RoutableMembers(ctx: Context, ps: seq<Provider>, excluded: set<Provider>)
    ensures forall p :: p in Routable(ctx, ps, excluded) <==> p in ps && p != DEMO && Available(ResolveStatus(ctx, p)) && p !in excluded
  {
    if ps != [] {
      RoutableMembers(ctx, ps[1..], excluded);
      assert ps == [ps[0]] + ps[1..];
    }
  }

  /** The routable providers keep the listing order. */
  predicate InListingOrder(s: seq<Provider>) {
    forall i, j :: 0 <= i < j < |s| ==> Rank(s[i]) < Rank(s[j])
  }

  lemma TailInListingOrder(ps: seq<Provider>)
    requires ps != [] && InListingOrder(ps)
    ensures InListingOrder(ps[1..])
  {
    var tail := ps[1..];
    forall i, j | 0 <= i < j < |tail| ensures Rank(tail[i]) < Rank(tail[j]) {
      assert tail[i] == ps[i + 1] && tail[j] == ps[j + 1];
    }
  }

  /** The first provider ranks below everything routable after it. */
  lemma HeadRanksBelow(ctx: Context, ps: seq<Provider>, excluded: set<Provider>)
    requires ps != [] && InListingOrder(ps)
    ensures forall k :: 0 <= k < |Routable(ctx, ps[1..], excluded)| ==> Rank(ps[0]) < Rank(Routable(ctx, ps[1..], excluded)[k])
  {
    var tail := ps[1..];
    RoutableMembers(ctx, tail, excluded);
    var rest := Routable(ctx, tail, excluded);
    forall k | 0 <= k < |rest| ensures Rank(ps[0]) < Rank(rest[k]) {
      assert rest[k] in tail;
      var j :| 0 <= j < |tail| && tail[j] == rest[k];
      assert ps[j + 1] == rest[k];
    }
  }

  lemma ConsInListingOrder(x: Provider, rest: seq<Provider>)
    requires InListingOrder(rest)
    requires forall k :: 0 <= k < |rest| ==> Rank(x) < Rank(rest[k])
    ensures InListingOrder([x] + rest)
  {
    var r := [x] + rest;
    forall i, j | 0 <= i < j < |r| ensures Rank(r[i]) < Rank(r[j]) {
      assert r[j] == rest[j - 1];
      if i > 0 {
        assert r[i] == rest[i - 1];
      }
    }
  }

  lemma {:induction false} RoutableOrdered(ctx: Context, ps: seq<Provider>, excluded: set<Provider>)
    requires InListingOrder(ps)
    ensures InListingOrder(Routable(ctx, ps, excluded))
  {
    if ps != [] {
      TailInListingOrder(ps);
      RoutableOrdered(ctx, ps[1..], excluded);
      HeadRanksBelow(ctx, ps, excluded);
      var rest := Routable(ctx, ps[1..], excluded);
      if ps[0] != DEMO && Available(ResolveStatus(ctx, ps[0])) && ps[0] !in excluded {
        ConsInListingOrder(ps[0], rest);
      } else {
        assert Routable(ctx, ps, excluded) == [] + rest == rest;
      }
    }
  }

  /** The filter distributes over concatenation. */
  lemma {:induction false} RoutableAppend(ctx: Context, a: seq<Provider>, b: seq<Provider>, excluded: set<Provider>)
    ensures Routable(ctx, a + b, excluded) == Routable(ctx, a, excluded) + Routable(ctx, b, excluded)
  {
    if a != [] {
      assert (a + b)[0] == a[0] && (a + b)[1..] == a[1..] + b;
      RoutableAppend(ctx, a[1..], b, excluded);
    } else {
      assert a + b == b;
    }
  }

  /** The loop of `availableProviders` over statuses of `ps`, in order. */
  method CollectRoutable(ctx: Context, statuses: seq<ProviderStatus>, ghost ps: seq<Provider>, excluded: set<Provider>)
    returns (available: seq<Provider>)
    requires |statuses| == |ps|
    requires forall k :: 0 <= k < |ps| ==> statuses[k] == ResolveStatus(ctx, ps[k])
    ensures available == Routable(ctx, ps, excluded)
  {
    available := [];
    var i := 0;
    while i < |statuses|
      invariant 0 <= i <= |statuses|
      invariant available == Routable(ctx, ps[..i], excluded)
    {
      assert ps[..i + 1] == ps[..i] + [ps[i]];
      RoutableAppend(ctx, ps[..i], [ps[i]], excluded);
      var status := statuses[i];
      if status.provider == DEMO {
      } else if !Available(status) {
      } else if status.provider in excluded {
      } else {
        available := available + [status.provider];
      }
      i := i + 1;
    }
    assert ps[..i] == ps;
  }

  /** `availableProviders`: list the statuses, keep the routable ones. */
  method AvailableProviders(ctx: Context, excluded: set<Provider>) returns (available: seq<Provider>)
    ensures available == Routable(ctx, ORDERED, excluded)
  {
    var statuses := ListForMerchant(ctx);
    available := CollectRoutable(ctx, statuses, ORDERED, excluded);
  }

  /** The routable list holds exactly the available, non-excluded
      providers other than DEMO, in STRIPE, ADYEN, PAYPAL, TRANSBANK order. */
  lemma AvailableProvidersSpec(ctx: Context, excluded: set<Provider>)
    ensures var r := Routable(ctx, ORDERED, excluded);
      DEMO !in r && MASTERCARD !in r
      && (forall p :: p in r <==> p in ORDERED && p != DEMO && Available(ResolveStatus(ctx, p)) && p !in excluded)
      && InListingOrder(r)
  {
    OrderedInListingOrder();
    RoutableOrdered(ctx, ORDERED, excluded);
    RoutableMembers(ctx, ORDERED, excluded);
    assert MASTERCARD !in ORDERED;
  }

  /** The listing order itself ranks its providers strictly upwards. */
  lemma OrderedInListingOrder()
    ensures InListingOrder(ORDERED)
  {
    forall i, j | 0 <= i < j < |ORDERED| ensures Rank(ORDERED[i]) < Rank(ORDERED[j]) {
      RankIsPosition(i);
      RankIsPosition(j);
    }
  }

  /** PAYPAL and TRANSBANK are never routable; so only STRIPE and ADYEN can be. */
  lemma OnlyStripeAndAdyenRoutable(ctx: Context, excluded: set<Provider>)
    ensures forall p :: p in Routable(ctx, ORDERED, excluded) ==> p == STRIPE || p == ADYEN
  {
    RoutableMembers(ctx, ORDERED, excluded);
  }
}
