/**
 * `ProviderConfigService`: the gateway-wide provider credentials, stored one
 * row per provider (enabled flag and credential map; the map's encryption
 * is left out, decrypting what was encrypted gives it back), and the
 * effective configuration an adapter falls back to.
 */
module ProviderConfig {
  import opened Wrappers
  import opened Domain
  import opened JavaString
  import opened Settings
  import opened ConfigMaps

  /** The credential schemas; DEMO and TRANSBANK have none. */
  function SchemaOf(p: Provider): (r: Option<Schema>)
    ensures r.Some? <==> p in {STRIPE, ADYEN, MASTERCARD, PAYPAL}
  {
    match p
    case STRIPE => Some(Schema(["secretKey", "publishableKey"], ["webhookSecret"]))
    case ADYEN => Some(Schema(["apiKey", "merchantAccount", "clientKey"], ["hmacKey", "environment"]))
    case MASTERCARD => Some(Schema(["gatewayHost", "apiVersion", "merchantId", "apiPassword"], []))
    case PAYPAL => Some(Schema(["clientId", "clientSecret"], ["environment"]))
    case _ => None
  }

  /** `missingRequiredFields(provider, config)` */
  function MissingFor(p: Provider, config: Option<Config>): (r: seq<string>)
    ensures SchemaOf(p).None? ==> r == []
  {
    if SchemaOf(p).None? then [] else Missing(SchemaOf(p).value.required, config)
  }

  datatype StoredConfig = StoredConfig(enabled: bool, config: Config)

  datatype ConfigView = ConfigView(
    provider: Provider,
    enabled: bool,
    configured: bool,
    config: Config,
    missingFields: seq<string>,
    configurable: bool)

  datatype ConfigRequest = ConfigRequest(enabled: Option<bool>, config: Option<RawConfig>)

  datatype EffectiveConfig = EffectiveConfig(
    configured: bool,
    enabled: bool,
    config: Config,
    source: string,
    missingFields: seq<string>)

  const DemoView: ConfigView := ConfigView(DEMO, true, true, map[], [], false)

  /** The properties a provider's environment fallback reads, by key. */
  function EnvValues(props: Properties, p: Provider): RawConfig {
    if props.None? then map[]
    else match p
      case STRIPE =>
        if props.value.stripe.None? then map[]
        else var s := props.value.stripe.value;
          map["secretKey" := s.secretKey, "publishableKey" := s.publishableKey, "webhookSecret" := s.webhookSecret]
      case ADYEN =>
        if props.value.adyen.None? then map[]
        else var a := props.value.adyen.value;
          map["apiKey" := a.apiKey, "merchantAccount" := a.merchantAccount, "clientKey" := a.clientKey,
              "hmacKey" := a.hmacKey, "environment" := a.environment]
      case MASTERCARD =>
        if props.value.mastercard.None? then map[]
        else var m := props.value.mastercard.value;
          map["gatewayHost" := m.gatewayHost, "apiVersion" := m.apiVersion, "merchantId" := m.merchantId,
              "apiPassword" := m.apiPassword]
      case _ => map[]
  }

  /** `fallbackConfig`: the non-blank properties, trimmed (`putIfNotBlank`). */
  function FallbackConfig(props: Properties, p: Provider): (r: Config)
    ensures forall k :: k in r <==> Present(EnvValues(props, p), k)
    ensures forall k :: k in r ==>
      (k in EnvValues(props, p) && EnvValues(props, p)[k].Some? && r[k] == Trim(EnvValues(props, p)[k].value))
    ensures p !in {STRIPE, ADYEN, MASTERCARD} ==> r == map[]
  {
    Kept(Some(EnvValues(props, p)))
  }

  /** What every stored row satisfies: it belongs to a provider with a
      schema, its values are trimmed, and an enabled row lacks no required
      key. */
  predicate RowOk(p: Provider, row: StoredConfig) {
    SchemaOf(p).Some?
    && (forall k :: k in row.config ==> Trim(row.config[k]) == row.config[k])
    && (row.enabled ==> MissingFor(p, Some(row.config)) == [])
  }

  /** The stored rows, one per provider. */
  type Rows = map<Provider, StoredConfig>

  predicate RowsOk(rows: Rows) {
    forall p :: p in rows ==> RowOk(p, rows[p])
  }

  /** The view of a stored row (`toView`): masked values, missing keys. */
  function RowView(p: Provider, row: StoredConfig): (v: ConfigView)
    ensures v.provider == p && v.enabled == row.enabled && v.configurable
    ensures v.configured <==> v.missingFields == []
    ensures v.missingFields == MissingFor(p, Some(row.config))
    ensures v.config == Masked(SchemaOf(p), Some(row.config))
  {
    var missing := MissingFor(p, Some(row.config));
    ConfigView(p, row.enabled, missing == [], Masked(SchemaOf(p), Some(row.config)), missing, true)
  }

  /** The view of a provider without a row: every required key is missing. */
  function EmptyView(p: Provider): (v: ConfigView)
    requires SchemaOf(p).Some?
    ensures v == ConfigView(p, false, false, map[], SchemaOf(p).value.required, true)
  {
    MissingOfEmpty(SchemaOf(p).value.required);
    ConfigView(p, false, false, map[], MissingFor(p, Some(map[])), true)
  }

  /** One entry of `list`: DEMO is fixed, a provider without a schema is
      skipped. */
  function ListEntry(rows: Rows, p: Provider): (v: Option<ConfigView>)
    ensures v.None? <==> p != DEMO && SchemaOf(p).None?
    ensures p == DEMO ==> v == Some(DemoView)
    ensures v.Some? ==> v.value.provider == p
  {
    if p == DEMO then Some(DemoView)
    else if SchemaOf(p).None? then None
    else if p !in rows then Some(EmptyView(p))
    else Some(RowView(p, rows[p]))
  }

  /** The entries of `list` for the providers `ps`, in order. */
  function ListSpec(rows: Rows, ps: seq<Provider>): (r: seq<ConfigView>)
    ensures |r| <= |ps|
  {
    if ps == [] then []
    else (if ListEntry(rows, ps[0]).Some? then [ListEntry(rows, ps[0]).value] else []) + ListSpec(rows, ps[1..])
  }

  lemma ListSpecCons(rows: Rows, ps: seq<Provider>)
    requires ps != []
    ensures ListSpec(rows, ps)
      == (if ListEntry(rows, ps[0]).Some? then [ListEntry(rows, ps[0]).value] else []) + ListSpec(rows, ps[1..])
  {
  }

  /** The providers `list` shows, in order. */
  function Listed(ps: seq<Provider>): (r: seq<Provider>)
    ensures |r| <= |ps|
  {
    if ps == [] then []
    else (if ps[0] == DEMO || SchemaOf(ps[0]).Some? then [ps[0]] else []) + Listed(ps[1..])
  }

  function ProvidersOf(views: seq<ConfigView>): (r: seq<Provider>)
    ensures |r| == |views|
    ensures forall i :: 0 <= i < |views| ==> r[i] == views[i].provider
  {
    if views == [] then [] else [views[0].provider] + ProvidersOf(views[1..])
  }

  /** `list` shows exactly the listed providers, in order. */
  lemma {:induction false} ListSpecProviders(rows: Rows, ps: seq<Provider>)
    ensures ProvidersOf(ListSpec(rows, ps)) == Listed(ps)
  {
    if ps != [] {
      ListSpecProviders(rows, ps[1..]);
      ListSpecCons(rows, ps);
      var head := if ListEntry(rows, ps[0]).Some? then [ListEntry(rows, ps[0]).value] else [];
      ProvidersAppend(head, ListSpec(rows, ps[1..]));
    }
  }

  lemma ProvidersAppend(a: seq<ConfigView>, b: seq<ConfigView>)
    ensures ProvidersOf(a + b) == ProvidersOf(a) + ProvidersOf(b)
  {
    var l, m := ProvidersOf(a + b), ProvidersOf(a) + ProvidersOf(b);
    forall i | 0 <= i < |l| ensures l[i] == m[i] {
      if i < |a| {
        assert (a + b)[i] == a[i];
      } else {
        assert (a + b)[i] == b[i - |a|];
      }
    }
  }

  /** The DEMO entry of `list` is the fixed DEMO view. */
  lemma {:induction false} ListSpecDemo(rows: Rows, ps: seq<Provider>)
    ensures forall i :: 0 <= i < |ListSpec(rows, ps)| && ListSpec(rows, ps)[i].provider == DEMO ==>
      ListSpec(rows, ps)[i] == DemoView
  {
    if ps != [] {
      ListSpecDemo(rows, ps[1..]);
      ListSpecCons(rows, ps);
    }
  }

  /** `list` has five entries: STRIPE, ADYEN, MASTERCARD, PAYPAL, then the
      fixed DEMO view; TRANSBANK has no schema and is skipped. */
  lemma ListProviders(rows: Rows)
    ensures var l := ListSpec(rows, AllProviders);
      |l| == 5 && l[0].provider == STRIPE && l[1].provider == ADYEN && l[2].provider == MASTERCARD
      && l[3].provider == PAYPAL && l[4] == DemoView
  {
    ListedAll();
    ListSpecProviders(rows, AllProviders);
    ListSpecDemo(rows, AllProviders);
    var l := ListSpec(rows, AllProviders);
    assert ProvidersOf(l)[4] == DEMO;
  }

  lemma ListedAll()
    ensures Listed(AllProviders) == [STRIPE, ADYEN, MASTERCARD, PAYPAL, DEMO]
  {
    var ps := AllProviders;
    assert ps[1..][1..][1..][1..][1..][1..] == [];
  }

  /** `get`: DEMO is fixed; a provider without a schema is a bad request. */
  function Get(rows: Rows, p: Provider): (r: Result<ConfigView, Failure>)
    ensures p == DEMO ==> r == Ok(DemoView)
    ensures p != DEMO && SchemaOf(p).None? ==> r.Err? && r.error.Api? && r.error.status == BAD_REQUEST
    ensures p != DEMO && SchemaOf(p).Some? && p !in rows ==> r == Ok(EmptyView(p))
    ensures p != DEMO && SchemaOf(p).Some? && p in rows ==> r == Ok(RowView(p, rows[p]))
  {
    if p == DEMO then Ok(DemoView)
    else if SchemaOf(p).None? then Err(Api(BAD_REQUEST, "Provider not supported for config: " + ProviderName(p)))
    else if p !in rows then Ok(EmptyView(p))
    else Ok(RowView(p, rows[p]))
  }

  /** `get` and `list` agree on every provider `list` shows. */
  lemma GetAgreesWithList(rows: Rows, p: Provider)
    requires ListEntry(rows, p).Some?
    ensures Get(rows, p) == Ok(ListEntry(rows, p).value)
  {
  }

  /** `find` */
  function Find(rows: Rows, p: Provider): (r: Option<StoredConfig>)
    ensures r.Some? <==> p in rows
    ensures r.Some? ==> r.value == rows[p]
  {
    if p in rows then Some(rows[p]) else None
  }

  /** `resolveEffectiveConfig`: DEMO, else the stored row, else the
      non-empty environment fallback, else nothing. */
  function ResolveEffectiveConfig(rows: Rows, props: Properties, p: Provider): (r: EffectiveConfig)
    ensures p == DEMO ==> r == EffectiveConfig(true, true, map[], "DEMO", [])
    ensures p != DEMO && p in rows ==>
      r.source == "DB" && r.enabled == rows[p].enabled && r.config == rows[p].config
      && r.missingFields == MissingFor(p, Some(rows[p].config)) && (r.configured <==> r.missingFields == [])
    ensures p != DEMO && p !in rows && FallbackConfig(props, p) != map[] ==>
      r.source == "ENV" && r.config == FallbackConfig(props, p) && r.configured == r.enabled
      && (r.configured <==> MissingFor(p, Some(FallbackConfig(props, p))) == [])
    ensures p != DEMO && p !in rows && FallbackConfig(props, p) == map[] ==>
      r.source == "NONE" && !r.configured && !r.enabled && r.config == map[]
  {
    if p == DEMO then EffectiveConfig(true, true, map[], "DEMO", [])
    else if p in rows then
      var config := rows[p].config;
      var missing := MissingFor(p, Some(config));
      EffectiveConfig(missing == [], rows[p].enabled, config, "DB", missing)
    else
      var envConfig := FallbackConfig(props, p);
      if envConfig != map[] then
        var missing := MissingFor(p, Some(envConfig));
        EffectiveConfig(missing == [], missing == [], envConfig, "ENV", missing)
      else EffectiveConfig(false, false, map[], "NONE", MissingFor(p, Some(map[])))
  }

  /** Every enabled row is complete, so an enabled effective configuration
      is always a configured one, whatever its source. */
  lemma EnabledIsConfigured(rows: Rows, props: Properties, p: Provider)
    requires RowsOk(rows)
    ensures ResolveEffectiveConfig(rows, props, p).enabled ==> ResolveEffectiveConfig(rows, props, p).configured
  {
  }

  /** The `enabled` a request asks for: true unless it says otherwise. */
  function RequestedEnabled(request: Option<ConfigRequest>): bool {
    if request.Some? && request.value.enabled.Some? then request.value.enabled.value else true
  }

  function RequestedConfig(request: Option<ConfigRequest>): Option<RawConfig> {
    if request.None? then None else request.value.config
  }

  /** The stored map merged with a request's non-blank values. */
  function UpsertMerged(rows: Rows, p: Provider, request: Option<ConfigRequest>): Config {
    Merged(Some(if p in rows then ToRaw(rows[p].config) else map[]), RequestedConfig(request))
  }

  /** A row saved by `upsert` keeps the rows' invariant. */
  lemma UpsertKeepsRowsOk(rows: Rows, p: Provider, request: Option<ConfigRequest>)
    requires RowsOk(rows) && SchemaOf(p).Some?
    requires RequestedEnabled(request) ==> MissingFor(p, Some(UpsertMerged(rows, p, request))) == []
    ensures RowsOk(rows[p := StoredConfig(RequestedEnabled(request), UpsertMerged(rows, p, request))])
  {
    MergedValuesTrimmed(Some(if p in rows then ToRaw(rows[p].config) else map[]), RequestedConfig(request));
  }

  /** Disabling keeps the rows' invariant. */
  lemma DisableKeepsRowsOk(rows: Rows, p: Provider)
    requires RowsOk(rows) && p in rows
    ensures RowsOk(rows[p := StoredConfig(false, rows[p].config)])
  {
  }

  class ProviderConfigService {
    var rows: Rows
    const props: Properties

    ghost predicate Valid()
      reads this
    {
      RowsOk(rows)
    }

    constructor (props: Properties)
      ensures Valid() && rows == map[] && this.props == props
    {
      rows := map[];
      this.props := props;
    }

    /** `list`: one view per provider with a schema, plus DEMO, in
        enumeration order. */
    method List() returns (views: seq<ConfigView>)
      ensures views == ListSpec(rows, AllProviders)
    {
      views := CollectViews(AllProviders);
    }

    /** The loop of `list` over the providers `ps`. */
    method CollectViews(ps: seq<Provider>) returns (views: seq<ConfigView>)
      ensures views == ListSpec(rows, ps)
    {
      views := [];
      var i := 0;
      while i < |ps|
        invariant 0 <= i <= |ps|
        invariant views + ListSpec(rows, ps[i..]) == ListSpec(rows, ps)
      {
        ListSpecCons(rows, ps[i..]);
        assert ps[i..][1..] == ps[i + 1..];
        var provider := ps[i];
        if provider == DEMO {
          views := views + [DemoView];
        } else if SchemaOf(provider).Some? {
          if provider !in rows {
            views := views + [EmptyView(provider)];
          } else {
            views := views + [RowView(provider, rows[provider])];
          }
        }
        i := i + 1;
      }
      assert ps[i..] == [];
    }

    /** `upsert`: merge the request into the stored map, validate when
        enabled (the default), save. */
    method Upsert(p: Provider, request: Option<ConfigRequest>) returns (r: Result<ConfigView, Failure>)
      requires Valid()
      modifies this`rows
      ensures Valid()
      ensures p == DEMO || SchemaOf(p).None? ==>
        r.Err? && r.error.Api? && r.error.status == BAD_REQUEST && rows == old(rows)
      ensures p != DEMO && SchemaOf(p).Some? && RequestedEnabled(request)
              && MissingFor(p, Some(UpsertMerged(old(rows), p, request))) != [] ==>
        r.Err? && r.error.Api? && r.error.status == BAD_REQUEST && rows == old(rows)
      ensures p != DEMO && SchemaOf(p).Some?
              && !(RequestedEnabled(request) && MissingFor(p, Some(UpsertMerged(old(rows), p, request))) != []) ==>
        (var row := StoredConfig(RequestedEnabled(request), UpsertMerged(old(rows), p, request));
         rows == old(rows)[p := row] && r == Ok(RowView(p, row)))
    {
      if p == DEMO {
        return Err(Api(BAD_REQUEST, "DEMO does not require configuration"));
      }
      var schema := SchemaOf(p);
      if schema.None? {
        return Err(Api(BAD_REQUEST, "Provider not supported for config: " + ProviderName(p)));
      }
      ghost var before := rows;
      var enabled := RequestedEnabled(request);
      var existing: RawConfig := if p in rows then ToRaw(rows[p].config) else map[];
      var merged := MergeConfig(Some(existing), RequestedConfig(request));
      assert merged == UpsertMerged(before, p, request);
      var missing := MissingRequiredFields(schema, Some(merged));
      assert missing == MissingFor(p, Some(merged));
      if enabled && missing != [] {
        return Err(Api(BAD_REQUEST, "Missing required config values for " + ProviderName(p) + ": " + Join(", ", missing)));
      }
      r := Store(p, request, enabled, merged, missing);
    }

    /** The accepted half of `upsert`: the merged row is saved, replacing any
        stored one, and its view masks the secret fields. */
    method Store(p: Provider, request: Option<ConfigRequest>, enabled: bool, merged: Config, missing: seq<string>)
        returns (r: Result<ConfigView, Failure>)
      requires Valid() && p != DEMO && SchemaOf(p).Some?
      requires enabled == RequestedEnabled(request) && merged == UpsertMerged(rows, p, request)
      requires missing == MissingFor(p, Some(merged)) && !(enabled && missing != [])
      modifies this`rows
      ensures Valid()
      ensures var row := StoredConfig(enabled, merged);
        rows == old(rows)[p := row] && r == Ok(RowView(p, row))
    {
      UpsertKeepsRowsOk(rows, p, request);
      var row := StoredConfig(enabled, merged);
      var masked := MaskConfig(SchemaOf(p), Some(merged));
      SaveRow(p, row);
      r := Ok(ConfigView(p, enabled, missing == [], masked, missing, true));
      assert r == Ok(RowView(p, row));
    }

    /** `configRepository.save`: the row replaces any for the same provider. */
    method SaveRow(p: Provider, row: StoredConfig)
      requires RowsOk(rows[p := row])
      modifies this`rows
      ensures Valid()
      ensures rows == old(rows)[p := row]
    {
      rows := rows[p := row];
    }

    /** `disable`: clear the flag of a stored row and keep its map; with no
        row nothing is saved. */
    method Disable(p: Provider) returns (r: Result<ConfigView, Failure>)
      requires Valid()
      modifies this`rows
      ensures Valid()
      ensures p == DEMO ==> r == Ok(DemoView) && rows == old(rows)
      ensures p != DEMO && SchemaOf(p).None? ==>
        r.Err? && r.error.Api? && r.error.status == BAD_REQUEST && rows == old(rows)
      ensures p != DEMO && SchemaOf(p).Some? && p !in old(rows) ==> r == Ok(EmptyView(p)) && rows == old(rows)
      ensures p != DEMO && SchemaOf(p).Some? && p in old(rows) ==>
        (var row := StoredConfig(false, old(rows)[p].config);
         rows == old(rows)[p := row] && r == Ok(RowView(p, row)))
    {
      if p == DEMO {
        return Ok(DemoView);
      }
      var schema := SchemaOf(p);
      if schema.None? {
        return Err(Api(BAD_REQUEST, "Provider not supported for config: " + ProviderName(p)));
      }
      if p !in rows {
        return Ok(EmptyView(p));
      }
      DisableKeepsRowsOk(rows, p);
      var row := StoredConfig(false, rows[p].config);
      SaveRow(p, row);
      var missing := MissingRequiredFields(schema, Some(row.config));
      var masked := MaskConfig(schema, Some(row.config));
      r := Ok(ConfigView(p, false, missing == [], masked, missing, true));
    }
  }

  /** Every value is trimmed and non-blank, as a merge leaves the values
      of ordinary (printable) text. */
  predicate Normalized(stored: Config) {
    forall k :: k in stored ==> Trim(stored[k]) == stored[k] && !IsBlank(stored[k])
  }

  /** A blank update leaves a stored value in place: upserting a request
      whose values are all blank stores the previous map again. */
  lemma BlankRequestKeepsConfig(stored: Config, updates: RawConfig)
    requires Normalized(stored)
    requires forall k :: !Present(updates, k)
    ensures Merged(Some(ToRaw(stored)), Some(updates)) == stored
  {
    KeptNothing(updates);
    KeptNormalized(stored);
    assert stored + map[] == stored;
  }

  /** Nothing of a request whose values are all blank is kept. */
  lemma KeptNothing(updates: RawConfig)
    requires forall k :: !Present(updates, k)
    ensures Kept(Some(updates)) == map[]
  {
  }

  /** Keeping the stored values of a normalized map gives the map back. */
  lemma KeptNormalized(stored: Config)
    requires Normalized(stored)
    ensures Kept(Some(ToRaw(stored))) == stored
  {
    var kept := Kept(Some(ToRaw(stored)));
    forall k ensures (k in kept <==> k in stored) && (k in stored ==> kept[k] == stored[k]) {
      KeptStoredKey(stored, k);
    }
  }

  lemma KeptStoredKey(stored: Config, k: string)
    requires k in stored ==> Trim(stored[k]) == stored[k] && !IsBlank(stored[k])
    ensures k in Kept(Some(ToRaw(stored))) <==> k in stored
    ensures k in stored ==> Kept(Some(ToRaw(stored)))[k] == stored[k]
  {
    var raw := ToRaw(stored);
    if k in stored {
      assert raw[k] == Some(stored[k]);
      assert Present(raw, k);
    }
  }
}
