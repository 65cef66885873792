/**
 * The routing-decision audit table and its one search query. Decisions are
 * only ever inserted, so the table is the sequence of saved decisions in
 * insertion order.
 */
module DecisionRepository {
  import opened Wrappers
  import opened Domain
  import opened Queries

  datatype RoutingDecision = RoutingDecision(
    id: string,
    paymentIntentId: string,
    merchantId: string,
    chosenProvider: Provider,
    candidateScoresJson: string,
    reasonCode: string,
    createdAt: Millis)

  function DecidedAt(d: RoutingDecision): int {
    d.createdAt
  }

  /** The `where` clause: each of from, to and provider only when given;
      both bounds inclusive; the provider compared with the chosen one. */
  predicate DecisionMatches(d: RoutingDecision, from: Option<Millis>, to: Option<Millis>, provider: Option<Provider>) {
    && (from.None? || d.createdAt >= from.value)
    && (to.None? || d.createdAt <= to.value)
    && (provider.None? || d.chosenProvider == provider.value)
  }

  function DecisionFilter(from: Option<Millis>, to: Option<Millis>, provider: Option<Provider>): RoutingDecision -> bool {
    d => DecisionMatches(d, from, to, provider)
  }

  /** `search`: the matching decisions, newest first. */
  function Search(t: seq<RoutingDecision>, from: Option<Millis>, to: Option<Millis>, provider: Option<Provider>)
    : (r: seq<RoutingDecision>)
    ensures forall d :: d in r <==> d in t && DecisionMatches(d, from, to, provider)
  {
    var keep := DecisionFilter(from, to, provider);
    ReverseMembers(Filter(t, keep));
    Reverse(Filter(t, keep))
  }

  /** With no filter at all, every decision is returned, newest first. */
  lemma UnfilteredSearch(t: seq<RoutingDecision>)
    ensures Search(t, None, None, None) == Reverse(t)
  {
    FilterAll(t, DecisionFilter(None, None, None));
  }

  /** On a table saved in time order, the search returns newest first. */
  lemma SearchNewestFirst(t: seq<RoutingDecision>, from: Option<Millis>, to: Option<Millis>, provider: Option<Provider>)
    requires Ascending(t, DecidedAt)
    ensures Descending(Search(t, from, to, provider), DecidedAt)
  {
    FilteredNewestFirst(t, DecisionFilter(from, to, provider), DecidedAt);
  }
}
