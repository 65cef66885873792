/**
 * The routing engine: hard currency constraints, explicit-preference and
 * merchant-force overrides, circuit-aware narrowing of the candidate list,
 * weighted scoring, and a stable FNV-1a tie-break on the intent id.
 *
 * The engine's health reader is the function `health`; the merchant's
 * routing JSON is parsed by the function `parse` (Jackson).
 */
module Routing {
  import opened Wrappers
  import opened Domain
  import opened JavaString
  import Fnv

  datatype Weights = Weights(
    w1SuccessRate: real,
    w2CostScore: real,
    w3LatencyScore: real,
    w4AvailabilityScore: real,
    w5RiskPenalty: real)

  const DefaultWeights: Weights := Weights(0.55, 0.15, 0.15, 0.10, 0.05)

  const DefaultCostModel: map<Provider, real> := map[STRIPE := 0.30, ADYEN := 0.25]

  /** A merchant's routing configuration; every field may be JSON `null`. */
  datatype RoutingConfig = RoutingConfig(
    forceProvider: Option<string>,
    weights: Option<Weights>,
    costModel: Option<map<Provider, real>>)

  /** `RoutingConfig.defaults()` */
  const Defaults: RoutingConfig := RoutingConfig(Some("AUTO"), Some(DefaultWeights), Some(DefaultCostModel))

  /** What the JSON mapper makes of a text: an exception, the literal `null`, or a value. */
  datatype ParseOutcome<T> = Malformed | JsonNull | Parsed(value: T)

  const REASON_EXPLICIT: string := "EXPLICIT_PREFERENCE"
  const REASON_FORCE: string := "MERCHANT_FORCE_PROVIDER"
  const REASON_WEIGHTED: string := "WEIGHTED_SCORE"
  const REASON_DEGRADED: string := "HEALTH_DEGRADED_NO_ALTERNATIVE"

  const StripeCurrencies: set<string> := {"USD", "EUR", "GBP"}
  const AdyenCurrencies: set<string> := {"USD", "EUR", "MXN"}

  /** Only STRIPE and ADYEN support any currency. */
  predicate SupportsCurrency(p: Provider, currency: string) {
    match p
    case STRIPE => currency in StripeCurrencies
    case ADYEN => currency in AdyenCurrencies
    case _ => false
  }

  /** A configuration every field of which the scorer can use. */
  predicate Usable(cfg: RoutingConfig) {
    cfg.weights.Some? && cfg.costModel.Some? && |cfg.costModel.value| > 0
  }

  /** `parseConfig`: defaults for a null, blank, unparsable or `null` text;
      otherwise the parsed config with a null weights object or a null or
      empty cost model replaced by the default. */
  function ParseConfig(json: Option<string>, parse: string -> ParseOutcome<RoutingConfig>): (cfg: RoutingConfig)
    ensures Usable(cfg)
    ensures IsNullOrBlank(json) ==> cfg == Defaults
    ensures !IsNullOrBlank(json) && !parse(json.value).Parsed? ==> cfg == Defaults
    ensures !IsNullOrBlank(json) && parse(json.value).Parsed? ==>
      var c := parse(json.value).value;
      && cfg.forceProvider == c.forceProvider
      && cfg.weights == (if c.weights.Some? then c.weights else Some(DefaultWeights))
      && cfg.costModel == (if c.costModel.Some? && |c.costModel.value| > 0 then c.costModel else Some(DefaultCostModel))
  {
    if IsNullOrBlank(json) then Defaults
    else match parse(json.value)
      case Malformed => Defaults
      case JsonNull => Defaults
      case Parsed(c) =>
        var w := if c.weights.None? then Some(DefaultWeights) else c.weights;
        var cm := if c.costModel.None? || |c.costModel.value| == 0 then Some(DefaultCostModel) else c.costModel;
        RoutingConfig(c.forceProvider, w, cm)
  }

  function Clamp01(v: real): (r: real)
    ensures 0.0 <= r <= 1.0
    ensures 0.0 <= v <= 1.0 ==> r == v
    ensures v < 0.0 ==> r == 0.0
    ensures v > 1.0 ==> r == 1.0
  {
    if v < 0.0 then 0.0 else if v > 1.0 then 1.0 else v
  }

  datatype ScoreBreakdown = ScoreBreakdown(
    totalScore: real,
    costScore: real,
    latencyScore: real,
    availabilityScore: real,
    riskPenalty: real)

  function AvailabilityScore(s: CircuitState): real {
    match s
    case CLOSED => 1.0
    case HALF_OPEN => 0.5
    case OPEN => 0.0
  }

  /** The risk penalty as written: the 0.10 tier sits behind the 0.25 one. */
  function RiskPenalty(amountMinor: int): (r: real)
    ensures r == (if amountMinor >= 20000 then 0.25 else 0.0)
  {
    if amountMinor >= 200_00 then 0.25 else if amountMinor >= 1_000_00 then 0.10 else 0.0
  }

  /** The weighted sum: success and availability add, cost, latency and risk subtract. */
  function Weighted(w: Weights, success: real, cost: real, latency: real, availability: real, risk: real): real {
    w.w1SuccessRate * success - w.w2CostScore * cost - w.w3LatencyScore * latency
      + w.w4AvailabilityScore * availability - w.w5RiskPenalty * risk
  }

  /** `score`: the sub-scores of one provider and their weighted total. */
  function Score(p: Provider, amountMinor: int, cfg: RoutingConfig, snap: Option<ProviderSnapshot>): (b: ScoreBreakdown)
    requires cfg.costModel.Some?
    ensures 0.0 <= b.costScore <= 1.0 && 0.0 <= b.latencyScore <= 1.0
    ensures b.costScore == Clamp01(if p in cfg.costModel.value then cfg.costModel.value[p] else 0.3)
    ensures b.latencyScore == (if snap.None? then 0.0 else Clamp01(snap.value.p95LatencyMs as real / 2000.0))
    ensures b.availabilityScore == (if snap.None? then 1.0 else AvailabilityScore(snap.value.circuitState))
    ensures b.riskPenalty == (if amountMinor >= 20000 then 0.25 else 0.0)
    ensures b.totalScore == Weighted(cfg.weights.GetOr(DefaultWeights),
      if snap.None? then 0.0 else Clamp01(snap.value.successRate),
      b.costScore, b.latencyScore, b.availabilityScore, b.riskPenalty)
  {
    var w := if cfg.weights.None? then DefaultWeights else cfg.weights.value;
    var success := if snap.None? then 0.0 else Clamp01(snap.value.successRate);
    var cost := Clamp01(if p in cfg.costModel.value then cfg.costModel.value[p] else 0.3);
    var latency := if snap.None? then 0.0 else Clamp01(snap.value.p95LatencyMs as real / 2000.0);
    var availability := if snap.None? then 1.0 else AvailabilityScore(snap.value.circuitState);
    var risk := RiskPenalty(amountMinor);
    ScoreBreakdown(Weighted(w, success, cost, latency, availability, risk), cost, latency, availability, risk)
  }

  /** One snapshot is at least as healthy as another. */
  predicate AtLeastAsHealthy(a: ProviderSnapshot, b: ProviderSnapshot) {
    Clamp01(a.successRate) >= Clamp01(b.successRate)
    && a.p95LatencyMs <= b.p95LatencyMs
    && AvailabilityScore(a.circuitState) >= AvailabilityScore(b.circuitState)
  }

  predicate NonNegative(w: Weights) {
    w.w1SuccessRate >= 0.0 && w.w2CostScore >= 0.0 && w.w3LatencyScore >= 0.0
    && w.w4AvailabilityScore >= 0.0 && w.w5RiskPenalty >= 0.0
  }

  lemma ScaleMonotone(w: real, x: real, y: real)
    requires w >= 0.0 && x >= y
    ensures w * x >= w * y
  {
    assert w * x - w * y == w * (x - y);
  }

  lemma ClampMonotone(x: real, y: real)
    requires x >= y
    ensures Clamp01(x) >= Clamp01(y)
  {
  }

  lemma WeightedMonotone(w: Weights, s1: real, s2: real, c: real, l1: real, l2: real, a1: real, a2: real, r: real)
    requires NonNegative(w) && s1 >= s2 && l1 <= l2 && a1 >= a2
    ensures Weighted(w, s1, c, l1, a1, r) >= Weighted(w, s2, c, l2, a2, r)
  {
    ScaleMonotone(w.w1SuccessRate, s1, s2);
    ScaleMonotone(w.w3LatencyScore, l2, l1);
    ScaleMonotone(w.w4AvailabilityScore, a1, a2);
  }

  /** With non-negative weights, a healthier snapshot never scores lower
      for the same provider, amount and configuration. */
  lemma HealthierScoresHigher(p: Provider, amountMinor: int, cfg: RoutingConfig, a: ProviderSnapshot, b: ProviderSnapshot)
    requires cfg.costModel.Some? && NonNegative(cfg.weights.GetOr(DefaultWeights))
    requires AtLeastAsHealthy(a, b)
    ensures Score(p, amountMinor, cfg, Some(a)).totalScore >= Score(p, amountMinor, cfg, Some(b)).totalScore
  {
    var sa, sb := Score(p, amountMinor, cfg, Some(a)), Score(p, amountMinor, cfg, Some(b));
    var la, lb := a.p95LatencyMs as real / 2000.0, b.p95LatencyMs as real / 2000.0;
    assert la <= lb;
    ClampMonotone(lb, la);
    WeightedMonotone(cfg.weights.GetOr(DefaultWeights), Clamp01(a.successRate), Clamp01(b.successRate),
      sa.costScore, sa.latencyScore, sb.latencyScore, sa.availabilityScore, sb.availabilityScore, sa.riskPenalty);
  }

  /** The candidate list: [STRIPE, ADYEN] in that order, minus the excluded
      providers and those that do not support the currency. */
  function Candidates(excluded: set<Provider>, currency: string): (r: seq<Provider>)
    ensures forall p :: p in r <==> (p in {STRIPE, ADYEN} && p !in excluded && SupportsCurrency(p, currency))
    ensures |r| <= 2 && (|r| == 2 ==> r == [STRIPE, ADYEN])
  {
    (if STRIPE !in excluded && SupportsCurrency(STRIPE, currency) then [STRIPE] else [])
    + (if ADYEN !in excluded && SupportsCurrency(ADYEN, currency) then [ADYEN] else [])
  }

  /** The candidates whose circuit is not OPEN, in candidate order. */
  function NonOpen(cands: seq<Provider>, health: Provider -> ProviderSnapshot): (r: seq<Provider>)
    ensures forall p :: p in r <==> (p in cands && health(p).circuitState != OPEN)
    ensures |r| <= |cands|
    ensures cands == [STRIPE, ADYEN] ==> r == [STRIPE, ADYEN] || |r| <= 1
  {
    if cands == [] then []
    else (if health(cands[0]).circuitState != OPEN then [cands[0]] else []) + NonOpen(cands[1..], health)
  }

  /** The scores of the given providers, each with its own snapshot. */
  function ScoreMap(ps: seq<Provider>, amountMinor: int, cfg: RoutingConfig, health: Provider -> ProviderSnapshot): (m: map<Provider, ScoreBreakdown>)
    requires cfg.costModel.Some?
    ensures m.Keys == set p | p in ps
  {
    map p | p in ps :: Score(p, amountMinor, cfg, Some(health(p)))
  }

  /** The totals of the candidates, in candidate order. */
  function Totals(cands: seq<Provider>, scores: map<Provider, ScoreBreakdown>): (t: seq<real>)
    requires forall p :: p in cands ==> p in scores
    ensures |t| == |cands| && forall i :: 0 <= i < |cands| ==> t[i] == scores[cands[i]].totalScore
  {
    if cands == [] then [] else [scores[cands[0]].totalScore] + Totals(cands[1..], scores)
  }

  /** The index the selection loop ends on after the first `n` totals: it
      moves only to a strictly greater total. */
  function FirstMax(xs: seq<real>, n: nat): (k: nat)
    requires 1 <= n <= |xs|
    ensures k < n
  {
    if n == 1 then 0
    else var k := FirstMax(xs, n - 1); if xs[n - 1] > xs[k] then n - 1 else k
  }

  /** One more total: the selection moves to it exactly when it beats the
      selected one. */
  lemma FirstMaxNext(xs: seq<real>, i: nat, k: nat)
    requires i < |xs| && k == (if i == 0 then 0 else FirstMax(xs, i))
    ensures FirstMax(xs, i + 1) == if xs[i] > xs[k] then i else k
  {
  }

  /** The loop lands on the earliest of the maximal totals. */
  lemma {:induction false} FirstMaxIsEarliestMaximum(xs: seq<real>, n: nat)
    requires 1 <= n <= |xs|
    ensures forall j :: 0 <= j < n ==> xs[j] <= xs[FirstMax(xs, n)]
    ensures forall j :: 0 <= j < FirstMax(xs, n) ==> xs[j] < xs[FirstMax(xs, n)]
  {
    if n > 1 {
      FirstMaxIsEarliestMaximum(xs, n - 1);
    }
  }

  /** The first candidate other than `best`, or `best` itself if there is none. */
  function FirstOther(cands: seq<Provider>, best: Provider): (o: Provider)
    ensures o != best ==> o in cands
    ensures o == best ==> forall p :: p in cands ==> p == best
  {
    if cands == [] then best
    else if cands[0] != best then cands[0]
    else
      assert forall p :: p in cands ==> p == cands[0] || p in cands[1..];
      FirstOther(cands[1..], best)
  }

  const Epsilon: real := 0.000001

  function Abs(x: real): real {
    if x < 0.0 then -x else x
  }

  /** The tie-break: STRIPE for an even FNV-1a hash of the id text, else
      ADYEN. Read as a signed int the hash keeps its parity, so the low bit
      of the unsigned hash decides. */
  function TieBreak(id: string): (r: Provider)
    ensures r == (if (Fnv.Hash(Fnv.Utf8(id)) as int) % 2 == 0 then STRIPE else ADYEN)
  {
    Fnv.BucketIsLowBit(Fnv.Hash(Fnv.Utf8(id)));
    if Fnv.FloorMod(Fnv.ToSigned(Fnv.Hash(Fnv.Utf8(id))), 2) == 0 then STRIPE else ADYEN
  }

  /** What `chooseBest` returns: the only candidate, or the tie-break, or
      a candidate whose total no other candidate beats. */
  function ChooseBestSpec(id: string, cands: seq<Provider>, scores: map<Provider, ScoreBreakdown>): (r: Provider)
    requires |cands| >= 1 && forall p :: p in cands ==> p in scores
    ensures |cands| == 1 ==> r == cands[0]
    ensures r == TieBreak(id) || (r in cands && forall p :: p in cands ==> scores[p].totalScore <= scores[r].totalScore)
  {
    if |cands| == 1 then cands[0]
    else
      var totals := Totals(cands, scores);
      FirstMaxIsEarliestMaximum(totals, |totals|);
      assert forall p :: p in cands ==> exists j :: 0 <= j < |cands| && cands[j] == p;
      var best := cands[FirstMax(totals, |totals|)];
      var other := FirstOther(cands, best);
      if Abs(scores[best].totalScore - scores[other].totalScore) < Epsilon then TieBreak(id) else best
  }

  /** `chooseBest`: the loop keeping the best candidate so far, then the
      tie check against the first other candidate. */
  method ChooseBest(id: string, cands: seq<Provider>, scores: map<Provider, ScoreBreakdown>) returns (chosen: Provider)
    requires |cands| >= 1 && forall p :: p in cands ==> p in scores
    ensures chosen == ChooseBestSpec(id, cands, scores)
  {
    if |cands| == 1 {
      return cands[0];
    }
    var best, bestScore := BestSoFar(cands, scores, Totals(cands, scores));
    var other := FirstOther(cands, best);
    var otherScore := scores[other].totalScore;
    assert ChooseBestSpec(id, cands, scores) == if Abs(bestScore - otherScore) < Epsilon then TieBreak(id) else best;
    if Abs(bestScore - otherScore) < Epsilon {
      var hash := Fnv.Fnv1a32(id);
      chosen := if Fnv.FloorMod(hash, 2) == 0 then STRIPE else ADYEN;
    } else {
      chosen := best;
    }
  }

  /** The loop of `chooseBest`: a candidate replaces the best so far only
      with a strictly higher total, so the earliest maximum wins. */
  method BestSoFar(cands: seq<Provider>, scores: map<Provider, ScoreBreakdown>, ghost totals: seq<real>)
    returns (best: Provider, bestScore: real)
    requires |cands| >= 1 && forall p :: p in cands ==> p in scores
    requires |totals| == |cands| && forall j :: 0 <= j < |cands| ==> totals[j] == scores[cands[j]].totalScore
    ensures best == cands[FirstMax(totals, |totals|)] && bestScore == scores[best].totalScore
  {
    ghost var k := 0;
    best := cands[0];
    bestScore := scores[best].totalScore;
    var i := 0;
    while i < |cands|
      invariant 0 <= i <= |cands|
      invariant k == (if i == 0 then 0 else FirstMax(totals, i))
      invariant best == cands[k] && bestScore == scores[best].totalScore
    {
      var s := scores[cands[i]].totalScore;
      assert s == totals[i];
      FirstMaxNext(totals, i, k);
      if s > bestScore {
        k, best, bestScore := i, cands[i], s;
      }
      i := i + 1;
    }
  }

  /** With two distinct candidates drawn from STRIPE and ADYEN, the choice
      is one of them: the highest-scoring one unless the two are within the
      tie margin, where the id's hash decides. */
  lemma ChooseBestPicksCandidate(id: string, cands: seq<Provider>, scores: map<Provider, ScoreBreakdown>)
    requires cands == [STRIPE, ADYEN] || |cands| == 1
    requires forall p :: p in cands ==> p in scores
    ensures ChooseBestSpec(id, cands, scores) in cands
    ensures |cands| == 2 && Abs(scores[STRIPE].totalScore - scores[ADYEN].totalScore) < Epsilon ==>
      ChooseBestSpec(id, cands, scores) == TieBreak(id)
    ensures |cands| == 2 && Abs(scores[STRIPE].totalScore - scores[ADYEN].totalScore) >= Epsilon ==>
      forall p :: p in cands ==> scores[p].totalScore <= scores[ChooseBestSpec(id, cands, scores)].totalScore
  {
    if |cands| == 2 {
      var totals := Totals(cands, scores);
      FirstMaxIsEarliestMaximum(totals, 2);
    }
  }

  datatype RoutingResult = RoutingResult(
    chosenProvider: Provider,
    reasonCode: string,
    scores: map<Provider, ScoreBreakdown>)

  /** `buildResult`'s breakdowns: every provider that supports the currency. */
  function OverrideScores(amountMinor: int, cfg: RoutingConfig, currency: string, health: Provider -> ProviderSnapshot): (m: map<Provider, ScoreBreakdown>)
    requires cfg.costModel.Some?
    ensures forall p :: p in m <==> SupportsCurrency(p, currency)
  {
    map p | p in AllProviders && SupportsCurrency(p, currency) :: Score(p, amountMinor, cfg, Some(health(p)))
  }

  /** The upper-cased currency, "" for null. */
  function NormalizeCurrency(currency: Option<string>): string {
    if currency.None? then "" else ToUpper(currency.value)
  }

  /** The messages of the `IllegalArgumentException`s `decide` raises. */
  function UnsupportedMessage(p: Provider, currency: string): string {
    "Provider " + ProviderName(p) + " does not support currency " + currency
  }

  function NoCandidateMessage(currency: string): string {
    "No provider supports currency " + currency
  }

  /** `Enum.valueOf`'s message for a name that is not a constant. */
  function NoConstantMessage(name: string): string {
    "No enum constant com.pasarela.domain.model.PaymentProvider." + name
  }

  /** What `decide` returns or raises: an `IllegalArgumentException`, or a
      provider that has a score breakdown in the result. */
  function DecideSpec(
    configJson: Option<string>, parse: string -> ParseOutcome<RoutingConfig>,
    health: Provider -> ProviderSnapshot, id: string, amountMinor: int,
    currency: Option<string>, preference: Option<Preference>, excluded: set<Provider>): (r: Result<RoutingResult, Failure>)
    ensures r.Err? ==> r.error.IllegalArgument?
    ensures r.Ok? ==> r.value.chosenProvider in r.value.scores
  {
    var cur := NormalizeCurrency(currency);
    var cfg := ParseConfig(configJson, parse);
    if preference.Some? && preference.value != AUTO then
      var chosen := ToProvider(preference.value).value;
      if !SupportsCurrency(chosen, cur) then Err(IllegalArgument(UnsupportedMessage(chosen, cur)))
      else Ok(RoutingResult(chosen, REASON_EXPLICIT, OverrideScores(amountMinor, cfg, cur, health)))
    else if cfg.forceProvider.Some? && !EqualsIgnoreCase("AUTO", cfg.forceProvider.value) then
      match ProviderValueOf(ToUpper(cfg.forceProvider.value))
      case None => Err(IllegalArgument(NoConstantMessage(ToUpper(cfg.forceProvider.value))))
      case Some(forced) =>
        if !SupportsCurrency(forced, cur) then Err(IllegalArgument(UnsupportedMessage(forced, cur)))
        else Ok(RoutingResult(forced, REASON_FORCE, OverrideScores(amountMinor, cfg, cur, health)))
    else
      WeightedDecisionFacts(health, id, amountMinor, cfg, cur, excluded);
      WeightedDecision(health, id, amountMinor, cfg, cur, excluded)
  }

  /** The AUTO path of `decide`: filter, narrow by circuit state, score, choose. */
  function WeightedDecision(health: Provider -> ProviderSnapshot, id: string, amountMinor: int,
                            cfg: RoutingConfig, cur: string, excluded: set<Provider>): Result<RoutingResult, Failure>
    requires cfg.costModel.Some?
  {
    var cands := Candidates(excluded, cur);
    if cands == [] then Err(IllegalArgument(NoCandidateMessage(cur)))
    else
      var nonOpen := NonOpen(cands, health);
      var effective := if nonOpen == [] then cands else nonOpen;
      var scores := ScoreMap(effective, amountMinor, cfg, health);
      Ok(RoutingResult(ChooseBestSpec(id, effective, scores),
        if nonOpen == [] then REASON_DEGRADED else REASON_WEIGHTED, scores))
  }

  /** `buildResult`: the breakdown loop over every provider. */
  method BuildResult(amountMinor: int, currency: string, cfg: RoutingConfig, chosen: Provider, reason: string,
                     health: Provider -> ProviderSnapshot) returns (r: RoutingResult)
    requires cfg.costModel.Some?
    ensures r == RoutingResult(chosen, reason, OverrideScores(amountMinor, cfg, currency, health))
  {
    var breakdowns: map<Provider, ScoreBreakdown> := map[];
    var i := 0;
    while i < |AllProviders|
      invariant 0 <= i <= |AllProviders|
      invariant forall p :: p in breakdowns <==> p in AllProviders[..i] && SupportsCurrency(p, currency)
      invariant forall p :: p in breakdowns ==> breakdowns[p] == Score(p, amountMinor, cfg, Some(health(p)))
    {
      var p := AllProviders[i];
      assert AllProviders[..i + 1] == AllProviders[..i] + [p];
      if SupportsCurrency(p, currency) {
        breakdowns := breakdowns[p := Score(p, amountMinor, cfg, Some(health(p)))];
      }
      i := i + 1;
    }
    assert AllProviders[..i] == AllProviders;
    ghost var expected := OverrideScores(amountMinor, cfg, currency, health);
    assert breakdowns.Keys == expected.Keys;
    r := RoutingResult(chosen, reason, breakdowns);
  }

  /** `decide`: overrides first, then the candidate filter, the snapshot and
      breakdown loops and the selection. */
  method Decide(
    configJson: Option<string>, parse: string -> ParseOutcome<RoutingConfig>,
    health: Provider -> ProviderSnapshot, id: string, amountMinor: int,
    currency: Option<string>, preference: Option<Preference>, excluded: set<Provider>)
    returns (r: Result<RoutingResult, Failure>)
    ensures r == DecideSpec(configJson, parse, health, id, amountMinor, currency, preference, excluded)
  {
    var cur := NormalizeCurrency(currency);
    var cfg := ParseConfig(configJson, parse);
    if preference.Some? && preference.value != AUTO {
      var chosen := ToProvider(preference.value).value;
      if !SupportsCurrency(chosen, cur) {
        return Err(IllegalArgument(UnsupportedMessage(chosen, cur)));
      }
      var res := BuildResult(amountMinor, cur, cfg, chosen, REASON_EXPLICIT, health);
      return Ok(res);
    }
    if cfg.forceProvider.Some? && !EqualsIgnoreCase("AUTO", cfg.forceProvider.value) {
      var forced := ProviderValueOf(ToUpper(cfg.forceProvider.value));
      if forced.None? {
        return Err(IllegalArgument(NoConstantMessage(ToUpper(cfg.forceProvider.value))));
      }
      if !SupportsCurrency(forced.value, cur) {
        return Err(IllegalArgument(UnsupportedMessage(forced.value, cur)));
      }
      var res := BuildResult(amountMinor, cur, cfg, forced.value, REASON_FORCE, health);
      return Ok(res);
    }
    r := RouteByScore(health, id, amountMinor, cfg, cur, excluded);
  }

  /** The AUTO path of `decide` with its breakdown loop. */
  method RouteByScore(health: Provider -> ProviderSnapshot, id: string, amountMinor: int,
                      cfg: RoutingConfig, cur: string, excluded: set<Provider>) returns (r: Result<RoutingResult, Failure>)
    requires cfg.costModel.Some?
    ensures r == WeightedDecision(health, id, amountMinor, cfg, cur, excluded)
  {
    var cands := Candidates(excluded, cur);
    if cands == [] {
      return Err(IllegalArgument(NoCandidateMessage(cur)));
    }
    var nonOpen := NonOpen(cands, health);
    var effective := if nonOpen == [] then cands else nonOpen;
    var breakdowns := ScoreAll(effective, amountMinor, cfg, health);
    var chosen := ChooseBest(id, effective, breakdowns);
    var reason := if nonOpen == [] then REASON_DEGRADED else REASON_WEIGHTED;
    r := Ok(RoutingResult(chosen, reason, breakdowns));
  }

  /** The breakdown loop: one score per effective candidate. */
  method ScoreAll(effective: seq<Provider>, amountMinor: int, cfg: RoutingConfig,
                  health: Provider -> ProviderSnapshot) returns (breakdowns: map<Provider, ScoreBreakdown>)
    requires cfg.costModel.Some?
    ensures breakdowns == ScoreMap(effective, amountMinor, cfg, health)
  {
    breakdowns := map[];
    var i := 0;
    while i < |effective|
      invariant 0 <= i <= |effective|
      invariant forall p :: p in breakdowns <==> p in effective[..i]
      invariant forall p :: p in breakdowns ==> breakdowns[p] == Score(p, amountMinor, cfg, Some(health(p)))
    {
      var p := effective[i];
      assert effective[..i + 1] == effective[..i] + [p];
      breakdowns := breakdowns[p := Score(p, amountMinor, cfg, Some(health(p)))];
      i := i + 1;
    }
    assert effective[..i] == effective;
    ghost var expected := ScoreMap(effective, amountMinor, cfg, health);
    assert breakdowns.Keys == expected.Keys;
  }

  /** An explicit (non-AUTO) preference is routed to that provider exactly
      when it supports the upper-cased currency, with reason
      EXPLICIT_PREFERENCE; otherwise decide raises IllegalArgumentException. */
  lemma ExplicitPreferenceWins(
    configJson: Option<string>, parse: string -> ParseOutcome<RoutingConfig>,
    health: Provider -> ProviderSnapshot, id: string, amountMinor: int,
    currency: Option<string>, pref: Preference, excluded: set<Provider>)
    requires pref != AUTO
    ensures var r := DecideSpec(configJson, parse, health, id, amountMinor, currency, Some(pref), excluded);
      && (r.Ok? <==> SupportsCurrency(ToProvider(pref).value, NormalizeCurrency(currency)))
      && (r.Ok? ==> r.value.chosenProvider == ToProvider(pref).value && r.value.reasonCode == REASON_EXPLICIT)
      && (r.Err? ==> r.error.IllegalArgument?)
  {
  }

  /** With AUTO, a merchant `forceProvider` other than "AUTO" (in any case)
      wins when it names a provider that supports the currency. */
  lemma MerchantForceWins(
    configJson: Option<string>, parse: string -> ParseOutcome<RoutingConfig>,
    health: Provider -> ProviderSnapshot, id: string, amountMinor: int,
    currency: Option<string>, pref: Option<Preference>, excluded: set<Provider>)
    requires pref.None? || pref == Some(AUTO)
    requires var cfg := ParseConfig(configJson, parse);
      cfg.forceProvider.Some? && !EqualsIgnoreCase("AUTO", cfg.forceProvider.value)
    ensures var r := DecideSpec(configJson, parse, health, id, amountMinor, currency, pref, excluded);
      var forced := ProviderValueOf(ToUpper(ParseConfig(configJson, parse).forceProvider.value));
      && (r.Ok? <==> forced.Some? && SupportsCurrency(forced.value, NormalizeCurrency(currency)))
      && (r.Ok? ==> r.value.chosenProvider == forced.value && r.value.reasonCode == REASON_FORCE)
  {
  }

  /** The weighted path: an error exactly when no candidate is left; the
      chosen provider is a scored candidate, never excluded, supports the
      currency, and is not OPEN whenever some candidate is not OPEN; the
      reason says which of the two cases applied. */
  lemma WeightedRouting(
    configJson: Option<string>, parse: string -> ParseOutcome<RoutingConfig>,
    health: Provider -> ProviderSnapshot, id: string, amountMinor: int,
    currency: Option<string>, pref: Option<Preference>, excluded: set<Provider>)
    requires pref.None? || pref == Some(AUTO)
    requires var cfg := ParseConfig(configJson, parse);
      cfg.forceProvider.None? || EqualsIgnoreCase("AUTO", cfg.forceProvider.value)
    ensures var r := DecideSpec(configJson, parse, health, id, amountMinor, currency, pref, excluded);
      var cur := NormalizeCurrency(currency);
      var cands := Candidates(excluded, cur);
      && (r.Err? <==> cands == [])
      && (r.Ok? ==>
        && r.value.chosenProvider in r.value.scores
        && r.value.chosenProvider in cands
        && r.value.chosenProvider !in excluded
        && SupportsCurrency(r.value.chosenProvider, cur)
        && ((exists p :: p in cands && health(p).circuitState != OPEN) <==> r.value.reasonCode == REASON_WEIGHTED)
        && (r.value.reasonCode == REASON_WEIGHTED ==>
              health(r.value.chosenProvider).circuitState != OPEN
              && forall p :: p in r.value.scores <==> p in cands && health(p).circuitState != OPEN)
        && (r.value.reasonCode == REASON_DEGRADED ==> forall p :: p in r.value.scores <==> p in cands))
  {
    var cur := NormalizeCurrency(currency);
    var cfg := ParseConfig(configJson, parse);
    assert DecideSpec(configJson, parse, health, id, amountMinor, currency, pref, excluded)
      == WeightedDecision(health, id, amountMinor, cfg, cur, excluded);
    WeightedDecisionFacts(health, id, amountMinor, cfg, cur, excluded);
  }

  /** The properties of the weighted path itself. */
  lemma WeightedDecisionFacts(health: Provider -> ProviderSnapshot, id: string, amountMinor: int,
                              cfg: RoutingConfig, cur: string, excluded: set<Provider>)
    requires cfg.costModel.Some?
    ensures var r := WeightedDecision(health, id, amountMinor, cfg, cur, excluded);
      var cands := Candidates(excluded, cur);
      && (r.Err? <==> cands == [])
      && (r.Ok? ==>
        && r.value.chosenProvider in r.value.scores
        && r.value.chosenProvider in cands
        && r.value.chosenProvider !in excluded
        && SupportsCurrency(r.value.chosenProvider, cur)
        && ((exists p :: p in cands && health(p).circuitState != OPEN) <==> r.value.reasonCode == REASON_WEIGHTED)
        && (r.value.reasonCode == REASON_WEIGHTED ==>
              health(r.value.chosenProvider).circuitState != OPEN
              && forall p :: p in r.value.scores <==> p in cands && health(p).circuitState != OPEN)
        && (r.value.reasonCode == REASON_DEGRADED ==> forall p :: p in r.value.scores <==> p in cands))
  {
    var cands := Candidates(excluded, cur);
    if cands != [] {
      var nonOpen := NonOpen(cands, health);
      var effective := if nonOpen == [] then cands else nonOpen;
      var scores := ScoreMap(effective, amountMinor, cfg, health);
      assert effective == [STRIPE, ADYEN] || |effective| == 1;
      ChooseBestPicksCandidate(id, effective, scores);
      if nonOpen == [] {
        assert !exists p :: p in cands && health(p).circuitState != OPEN;
      } else {
        assert nonOpen[0] in cands && health(nonOpen[0]).circuitState != OPEN;
      }
    }
  }

  /** Whatever path it takes, a decision that succeeds names a provider
      that supports the upper-cased currency. */
  lemma DecisionRespectsCurrency(
    configJson: Option<string>, parse: string -> ParseOutcome<RoutingConfig>,
    health: Provider -> ProviderSnapshot, id: string, amountMinor: int,
    currency: Option<string>, pref: Option<Preference>, excluded: set<Provider>)
    ensures var r := DecideSpec(configJson, parse, health, id, amountMinor, currency, pref, excluded);
      r.Ok? ==> SupportsCurrency(r.value.chosenProvider, NormalizeCurrency(currency))
  {
    var cfg := ParseConfig(configJson, parse);
    if !(pref.Some? && pref.value != AUTO) && !(cfg.forceProvider.Some? && !EqualsIgnoreCase("AUTO", cfg.forceProvider.value)) {
      WeightedRouting(configJson, parse, health, id, amountMinor, currency, pref, excluded);
    }
  }

  /** Two equally scored candidates are split by the id alone: the same id
      gets the same provider whatever else differs. */
  lemma EqualScoresSplitById(
    configJson: Option<string>, parse: string -> ParseOutcome<RoutingConfig>,
    health: Provider -> ProviderSnapshot, id: string, amountMinor: int,
    currency: Option<string>, pref: Option<Preference>, excluded: set<Provider>)
    requires pref.None? || pref == Some(AUTO)
    requires var cfg := ParseConfig(configJson, parse);
      cfg.forceProvider.None? || EqualsIgnoreCase("AUTO", cfg.forceProvider.value)
    requires Candidates(excluded, NormalizeCurrency(currency)) == [STRIPE, ADYEN]
    requires health(STRIPE) == health(ADYEN).(provider := STRIPE)
    requires var cm := ParseConfig(configJson, parse).costModel.value;
      Clamp01(if STRIPE in cm then cm[STRIPE] else 0.3) == Clamp01(if ADYEN in cm then cm[ADYEN] else 0.3)
    ensures var r := DecideSpec(configJson, parse, health, id, amountMinor, currency, pref, excluded);
      r.Ok? && r.value.chosenProvider == TieBreak(id)
  {
    var cur := NormalizeCurrency(currency);
    var cfg := ParseConfig(configJson, parse);
    assert DecideSpec(configJson, parse, health, id, amountMinor, currency, pref, excluded)
      == WeightedDecision(health, id, amountMinor, cfg, cur, excluded);
    WeightedTieSplitById(health, id, amountMinor, cfg, cur, excluded);
  }

  /** The weighted path of the above. */
  lemma WeightedTieSplitById(health: Provider -> ProviderSnapshot, id: string, amountMinor: int,
                             cfg: RoutingConfig, cur: string, excluded: set<Provider>)
    requires cfg.costModel.Some?
    requires Candidates(excluded, cur) == [STRIPE, ADYEN]
    requires health(STRIPE) == health(ADYEN).(provider := STRIPE)
    requires var cm := cfg.costModel.value;
      Clamp01(if STRIPE in cm then cm[STRIPE] else 0.3) == Clamp01(if ADYEN in cm then cm[ADYEN] else 0.3)
    ensures var r := WeightedDecision(health, id, amountMinor, cfg, cur, excluded);
      r.Ok? && r.value.chosenProvider == TieBreak(id)
  {
    var cands := Candidates(excluded, cur);
    var nonOpen := NonOpen(cands, health);
    var effective := if nonOpen == [] then cands else nonOpen;
    assert [STRIPE, ADYEN][1..] == [ADYEN];
    assert effective == [STRIPE, ADYEN];
    var scores := ScoreMap(effective, amountMinor, cfg, health);
    SameInputsSameTotal(amountMinor, cfg, health(STRIPE), health(ADYEN));
    assert scores[STRIPE].totalScore == scores[ADYEN].totalScore;
    ChooseBestPicksCandidate(id, effective, scores);
    var chosen := ChooseBestSpec(id, effective, scores);
    assert chosen == TieBreak(id);
    assert WeightedDecision(health, id, amountMinor, cfg, cur, excluded).value.chosenProvider == chosen;
  }

  /** STRIPE and ADYEN with the same snapshot figures and the same cost
      score get the same total. */
  lemma SameInputsSameTotal(amountMinor: int, cfg: RoutingConfig, s: ProviderSnapshot, a: ProviderSnapshot)
    requires cfg.costModel.Some?
    requires s == a.(provider := STRIPE)
    requires var cm := cfg.costModel.value;
      Clamp01(if STRIPE in cm then cm[STRIPE] else 0.3) == Clamp01(if ADYEN in cm then cm[ADYEN] else 0.3)
    ensures Score(STRIPE, amountMinor, cfg, Some(s)).totalScore == Score(ADYEN, amountMinor, cfg, Some(a)).totalScore
  {
    var x, y := Score(STRIPE, amountMinor, cfg, Some(s)), Score(ADYEN, amountMinor, cfg, Some(a));
    assert x.costScore == y.costScore && x.latencyScore == y.latencyScore && x.availabilityScore == y.availabilityScore;
  }
}
