/**
 * `MerchantProviderConfigService`: per-merchant provider credentials,
 * stored one row per (merchant, provider) with an enabled flag and a
 * credential map (the map's encryption is left out: decrypting what was
 * encrypted gives it back). Every operation but `find` first checks that
 * the merchant exists.
 */
module MerchantConfig {
  import opened Wrappers
  import opened Domain
  import opened JavaString
  import opened ConfigMaps
  import opened Queries

  /** The credential schemas; DEMO and MASTERCARD have none. */
  function SchemaOf(p: Provider): (r: Option<Schema>)
    ensures r.Some? <==> p in {STRIPE, ADYEN, PAYPAL, TRANSBANK}
  {
    match p
    case STRIPE => Some(Schema(["secretKey", "publishableKey"], ["webhookSecret"]))
    case ADYEN => Some(Schema(["apiKey", "merchantAccount", "clientKey"], ["hmacKey", "environment"]))
    case PAYPAL => Some(Schema(["clientId", "clientSecret"], ["environment"]))
    case TRANSBANK => Some(Schema(["commerceCode", "apiKey"], ["environment"]))
    case _ => None
  }

  /** The required keys of `p`'s schema that `config` lacks. */
  function MissingFor(p: Provider, config: Config): (r: seq<string>)
    ensures SchemaOf(p).None? ==> r == []
    ensures SchemaOf(p).Some? ==>
      forall k :: k in r <==> k in SchemaOf(p).value.required && !HasValue(Some(config), k)
  {
    if SchemaOf(p).None? then []
    else
      MissingMembers(SchemaOf(p).value.required, Some(config));
      Missing(SchemaOf(p).value.required, Some(config))
  }

  /** One stored row: the flag and the decrypted map. */
  datatype Row = Row(enabled: bool, config: Config)

  /** `ProviderConfigView` */
  datatype ConfigView = ConfigView(provider: Provider, enabled: bool, config: Config, configurable: bool)

  /** `ProviderConfigRequest`: both parts may be null. */
  datatype ConfigRequest = ConfigRequest(enabled: Option<bool>, config: Option<RawConfig>)

  /** `MerchantProviderConfig`, the record `find` returns. */
  datatype MerchantProviderConfig = MerchantProviderConfig(provider: Provider, enabled: bool, config: Config)

  /** The rows, keyed by merchant id and provider. */
  type Rows = map<(string, Provider), Row>

  const DemoView: ConfigView := ConfigView(DEMO, true, map[], false)

  const MerchantNotFound: Failure := Api(NOT_FOUND, "Merchant not found")

  /** What every stored row satisfies: its provider has a schema, its values
      are trimmed, and an enabled row lacks no required key. */
  predicate RowOk(p: Provider, row: Row) {
    SchemaOf(p).Some?
    && (forall k :: k in row.config ==> Trim(row.config[k]) == row.config[k])
    && (row.enabled ==> MissingFor(p, row.config) == [])
  }

  predicate RowsOk(rows: Rows) {
    forall key :: key in rows ==> RowOk(key.1, rows[key])
  }

  /** The view of a stored row: its flag and its masked map. */
  function RowView(p: Provider, row: Row): (v: ConfigView)
    ensures v.provider == p && v.enabled == row.enabled && v.configurable
    ensures forall k :: k in v.config <==>
      SchemaOf(p).Some? && (k in SchemaOf(p).value.required || k in SchemaOf(p).value.optional)
      && HasValue(Some(row.config), k)
    ensures forall k :: k in v.config ==> k in row.config && v.config[k] == MaskValue(row.config[k])
  {
    ConfigView(p, row.enabled, Masked(SchemaOf(p), Some(row.config)), true)
  }

  /** The view of a provider the merchant has no row for. */
  function EmptyView(p: Provider): (v: ConfigView)
    ensures v.provider == p && !v.enabled && v.config == map[] && v.configurable
  {
    ConfigView(p, false, map[], true)
  }

  /** One entry of `list`: DEMO is fixed, a provider without a schema is
      skipped. */
  function ListEntry(rows: Rows, merchant: string, p: Provider): (v: Option<ConfigView>)
    ensures v.None? <==> p != DEMO && SchemaOf(p).None?
    ensures p == DEMO ==> v == Some(DemoView)
    ensures v.Some? ==> v.value.provider == p
    ensures p != DEMO && SchemaOf(p).Some? && (merchant, p) !in rows ==> v == Some(EmptyView(p))
  {
    if p == DEMO then Some(DemoView)
    else if SchemaOf(p).None? then None
    else if (merchant, p) !in rows then Some(EmptyView(p))
    else Some(RowView(p, rows[(merchant, p)]))
  }

  /** The entries of `list` for the providers `ps`, in order. */
  function ListSpec(rows: Rows, merchant: string, ps: seq<Provider>): (r: seq<ConfigView>)
    ensures |r| <= |ps|
  {
    if ps == [] then []
    else
      var e := ListEntry(rows, merchant, ps[0]);
      (if e.Some? then [e.value] else []) + ListSpec(rows, merchant, ps[1..])
  }

  lemma {:induction false} ListSpecAppend(rows: Rows, merchant: string, a: seq<Provider>, b: seq<Provider>)
    ensures ListSpec(rows, merchant, a + b) == ListSpec(rows, merchant, a) + ListSpec(rows, merchant, b)
  {
    if a != [] {
      assert (a + b)[0] == a[0] && (a + b)[1..] == a[1..] + b;
      ListSpecAppend(rows, merchant, a[1..], b);
      var e := ListEntry(rows, merchant, a[0]);
      var head := if e.Some? then [e.value] else [];
      assert ListSpec(rows, merchant, a + b) == head + ListSpec(rows, merchant, a[1..] + b);
      assert ListSpec(rows, merchant, a) == head + ListSpec(rows, merchant, a[1..]);
      AppendAssoc(head, ListSpec(rows, merchant, a[1..]), ListSpec(rows, merchant, b));
    } else {
      assert a + b == b;
      AppendEmpty(ListSpec(rows, merchant, b));
    }
  }

  /** The entries of `list` for a single provider. */
  lemma ListSpecOne(rows: Rows, merchant: string, p: Provider)
    ensures var e := ListEntry(rows, merchant, p);
            ListSpec(rows, merchant, [p]) == if e.Some? then [e.value] else []
  {
    var e := ListEntry(rows, merchant, p);
    assert [p][1..] == [];
    AppendEmpty(if e.Some? then [e.value] else []);
  }

  /** The providers `list` shows, in order. */
  function Listed(ps: seq<Provider>): (r: seq<Provider>)
    ensures |r| <= |ps|
  {
    if ps == [] then []
    else (if ps[0] == DEMO || SchemaOf(ps[0]).Some? then [ps[0]] else []) + Listed(ps[1..])
  }

  function ProvidersOf(views: seq<ConfigView>): (r: seq<Provider>)
    ensures |r| == |views|
    ensures forall i :: 0 <= i < |views| ==> r[i] == views[i].provider
  {
    if views == [] then [] else [views[0].provider] + ProvidersOf(views[1..])
  }

  lemma ProvidersAppend(a: seq<ConfigView>, b: seq<ConfigView>)
    ensures ProvidersOf(a + b) == ProvidersOf(a) + ProvidersOf(b)
  {
    var l, m := ProvidersOf(a + b), ProvidersOf(a) + ProvidersOf(b);
    forall i | 0 <= i < |l| ensures l[i] == m[i] {
      if i < |a| {
        assert (a + b)[i] == a[i];
      } else {
        assert (a + b)[i] == b[i - |a|];
      }
    }
  }

  /** `list` shows exactly the listed providers, in order. */
  lemma {:induction false} ListSpecProviders(rows: Rows, merchant: string, ps: seq<Provider>)
    ensures ProvidersOf(ListSpec(rows, merchant, ps)) == Listed(ps)
  {
    if ps != [] {
      ListSpecProviders(rows, merchant, ps[1..]);
      var e := ListEntry(rows, merchant, ps[0]);
      ProvidersAppend(if e.Some? then [e.value] else [], ListSpec(rows, merchant, ps[1..]));
    }
  }

  /** The DEMO entry of `list` is the fixed, non-configurable DEMO view. */
  lemma {:induction false} ListSpecDemo(rows: Rows, merchant: string, ps: seq<Provider>)
    ensures forall i :: 0 <= i < |ListSpec(rows, merchant, ps)| && ListSpec(rows, merchant, ps)[i].provider == DEMO ==>
      ListSpec(rows, merchant, ps)[i] == DemoView
  {
    if ps != [] {
      ListSpecDemo(rows, merchant, ps[1..]);
    }
  }

  lemma ListedAll()
    ensures Listed(AllProviders) == [STRIPE, ADYEN, PAYPAL, DEMO, TRANSBANK]
  {
    var ps := AllProviders;
    assert ps[1..][1..][1..][1..][1..][1..] == [];
  }

  /** `list` has five entries, STRIPE, ADYEN, PAYPAL, DEMO, TRANSBANK in
      enumeration order (MASTERCARD has no schema); DEMO is the fixed view
      and a provider the merchant has no row for shows not enabled with an
      empty map. */
  lemma ListProviders(rows: Rows, merchant: string)
    ensures var l := ListSpec(rows, merchant, AllProviders);
      && |l| == 5
      && l[0].provider == STRIPE && l[1].provider == ADYEN && l[2].provider == PAYPAL
      && l[3] == DemoView && l[4].provider == TRANSBANK
      && (forall i :: 0 <= i < 5 && l[i].provider != DEMO ==> l[i].configurable)
  {
    ListedAll();
    ListSpecProviders(rows, merchant, AllProviders);
    ListSpecDemo(rows, merchant, AllProviders);
    var l := ListSpec(rows, merchant, AllProviders);
    assert ProvidersOf(l)[3] == DEMO;
    ListConfigurable(rows, merchant, AllProviders);
  }

  lemma {:induction false} ListConfigurable(rows: Rows, merchant: string, ps: seq<Provider>)
    ensures forall i :: 0 <= i < |ListSpec(rows, merchant, ps)| && ListSpec(rows, merchant, ps)[i].provider != DEMO ==>
      ListSpec(rows, merchant, ps)[i].configurable
  {
    if ps != [] {
      ListConfigurable(rows, merchant, ps[1..]);
    }
  }

  /** The `enabled` a request asks for: true unless it says otherwise. */
  function RequestedEnabled(request: Option<ConfigRequest>): bool {
    if request.Some? && request.value.enabled.Some? then request.value.enabled.value else true
  }

  function RequestedConfig(request: Option<ConfigRequest>): Option<RawConfig> {
    if request.None? then None else request.value.config
  }

  /** The stored map (empty for a new row) merged with the request's map. */
  function UpsertMerged(rows: Rows, merchant: string, p: Provider, request: Option<ConfigRequest>): Config {
    Merged(Some(if (merchant, p) in rows then ToRaw(rows[(merchant, p)].config) else map[]), RequestedConfig(request))
  }

  /** A row saved by `upsert` keeps the rows' invariant. */
  lemma UpsertKeepsRowsOk(rows: Rows, merchant: string, p: Provider, request: Option<ConfigRequest>)
    requires RowsOk(rows) && SchemaOf(p).Some?
    requires RequestedEnabled(request) ==> MissingFor(p, UpsertMerged(rows, merchant, p, request)) == []
    ensures RowsOk(rows[(merchant, p) := Row(RequestedEnabled(request), UpsertMerged(rows, merchant, p, request))])
  {
    MergedValuesTrimmed(
      Some(if (merchant, p) in rows then ToRaw(rows[(merchant, p)].config) else map[]), RequestedConfig(request));
  }

  /** Disabling keeps the rows' invariant. */
  lemma DisableKeepsRowsOk(rows: Rows, key: (string, Provider))
    requires RowsOk(rows) && key in rows
    ensures RowsOk(rows[key := Row(false, rows[key].config)])
  {
  }

  /** `s` occurs in `text` starting at index `j`. */
  predicate OccursAt(text: string, s: string, j: int) {
    0 <= j && j + |s| <= |text| && text[j..j + |s|] == s
  }

  /** `s` occurs in `text` as a contiguous piece. */
  ghost predicate Contains(text: string, s: string) {
    exists j :: OccursAt(text, s, j)
  }

  /** A masked value always shows the four stars. */
  lemma MaskShowsStars(raw: string)
    ensures Contains(MaskValue(raw), "****")
  {
    var r := MaskValue(raw);
    if |Trim(raw)| <= 4 {
      assert OccursAt(r, "****", 0);
    } else {
      assert OccursAt(r, "****", 4);
    }
  }

  /** A masked value never contains the value itself (nor its trimmed
      text), as long as the value is not blank after trimming and has no
      '*' of its own. */
  lemma MaskHidesValue(raw: string)
    requires Trim(raw) != [] && '*' !in raw
    ensures !Contains(MaskValue(raw), Trim(raw))
    ensures !Contains(MaskValue(raw), raw)
  {
    var a := LeadingTrimmable(raw);
    NoStarInTrim(raw);
    forall j ensures !OccursAt(MaskValue(raw), Trim(raw), j) {
      StarInWindow(raw, j);
    }
    forall j ensures !OccursAt(MaskValue(raw), raw, j) {
      TrimOccurs(MaskValue(raw), raw, j);
      StarInWindow(raw, j + a);
    }
  }

  lemma NoStarInTrim(raw: string)
    requires '*' !in raw
    ensures '*' !in Trim(raw)
  {
    var t := Trim(raw);
    forall i | 0 <= i < |t| ensures t[i] != '*' {
      assert t[i] == raw[LeadingTrimmable(raw) + i];
    }
  }

  /** Every window of the masked value as long as the trimmed text covers a star. */
  lemma StarInWindow(raw: string, j: int)
    requires Trim(raw) != [] && '*' !in Trim(raw)
    ensures !OccursAt(MaskValue(raw), Trim(raw), j)
  {
    var t := Trim(raw);
    var r := MaskValue(raw);
    if 0 <= j && j + |t| <= |r| {
      if |t| <= 4 {
        assert r[j..j + |t|][0] == '*';
      } else {
        assert r[4..8] == "****";
        assert r[j..j + |t|][4 - j] == r[4] == '*';
      }
    }
  }

  /** Where the value occurs, its trimmed text occurs further on. */
  lemma TrimOccurs(text: string, raw: string, j: int)
    ensures OccursAt(text, raw, j) ==> OccursAt(text, Trim(raw), j + LeadingTrimmable(raw))
  {
    var a := LeadingTrimmable(raw);
    var t := Trim(raw);
    if OccursAt(text, raw, j) {
      OccursInside(text, raw, j, a, |t|);
    }
  }

  /** Where a word occurs, each of its infixes occurs at its offset. */
  lemma OccursInside(text: string, w: string, j: int, a: int, m: int)
    requires OccursAt(text, w, j) && 0 <= a && 0 <= m && a + m <= |w|
    ensures OccursAt(text, w[a..a + m], j + a)
  {
    SliceOfSlice(text, j, j + |w|, a, a + m);
  }

  class MerchantProviderConfigService {
    var rows: Rows
    /** The ids the merchant repository holds. */
    const merchants: set<string>

    ghost predicate Valid()
      reads this
    {
      RowsOk(rows)
    }

    constructor (merchants: set<string>)
      ensures Valid() && rows == map[] && this.merchants == merchants
    {
      rows := map[];
      this.merchants := merchants;
    }

    /** `list`: the DEMO view and one view per provider with a schema, in
        enumeration order. */
    method List(merchant: string) returns (r: Result<seq<ConfigView>, Failure>)
      ensures merchant !in merchants ==> r == Err(MerchantNotFound)
      ensures merchant in merchants ==> r == Ok(ListSpec(rows, merchant, AllProviders))
    {
      if merchant !in merchants {
        return Err(MerchantNotFound);
      }
      var views: seq<ConfigView> := [];
      var i := 0;
      while i < |AllProviders|
        invariant 0 <= i <= |AllProviders|
        invariant views == ListSpec(rows, merchant, AllProviders[..i])
      {
        var provider := AllProviders[i];
        TakeSnoc(AllProviders, i);
        ListSpecAppend(rows, merchant, AllProviders[..i], [provider]);
        ListSpecOne(rows, merchant, provider);
        if provider == DEMO {
          views := views + [DemoView];
        } else if SchemaOf(provider).Some? {
          if (merchant, provider) !in rows {
            views := views + [EmptyView(provider)];
          } else {
            var row := rows[(merchant, provider)];
            var masked := MaskConfig(SchemaOf(provider), Some(row.config));
            views := views + [ConfigView(provider, row.enabled, masked, true)];
          }
        }
        i := i + 1;
      }
      TakeAll(AllProviders);
      r := Ok(views);
    }

    /** `upsert`: merge the request into the merchant's stored map, check the
        required keys only when enabled (the default), save. */
    method Upsert(merchant: string, p: Provider, request: Option<ConfigRequest>) returns (r: Result<ConfigView, Failure>)
      requires Valid()
      modifies this`rows
      ensures Valid()
      ensures merchant !in merchants ==> r == Err(MerchantNotFound) && rows == old(rows)
      ensures merchant in merchants && (p == DEMO || SchemaOf(p).None?) ==>
        r.Err? && r.error.Api? && r.error.status == BAD_REQUEST && rows == old(rows)
      ensures merchant in merchants && p != DEMO && SchemaOf(p).Some? && RequestedEnabled(request)
              && MissingFor(p, UpsertMerged(old(rows), merchant, p, request)) != [] ==>
        r == Err(Api(BAD_REQUEST, "Missing required config values for " + ProviderName(p) + ": "
                                  + Join(", ", MissingFor(p, UpsertMerged(old(rows), merchant, p, request)))))
        && rows == old(rows)
      ensures merchant in merchants && p != DEMO && SchemaOf(p).Some?
              && !(RequestedEnabled(request) && MissingFor(p, UpsertMerged(old(rows), merchant, p, request)) != []) ==>
        (var row := Row(RequestedEnabled(request), UpsertMerged(old(rows), merchant, p, request));
         rows == old(rows)[(merchant, p) := row] && r == Ok(RowView(p, row)))
    {
      if merchant !in merchants {
        return Err(MerchantNotFound);
      }
      if p == DEMO {
        return Err(Api(BAD_REQUEST, "DEMO does not require configuration"));
      }
      var schema := SchemaOf(p);
      if schema.None? {
        return Err(Api(BAD_REQUEST, "Provider not supported for config: " + ProviderName(p)));
      }
      ghost var before := rows;
      assert before == old(rows);
      var enabled := RequestedEnabled(request);
      var existing: RawConfig := if (merchant, p) in rows then ToRaw(rows[(merchant, p)].config) else map[];
      var merged := MergeConfig(Some(existing), RequestedConfig(request));
      assert merged == UpsertMerged(before, merchant, p, request);
      if enabled {
        var missing := MissingRequiredFields(schema, Some(merged));
        assert missing == MissingFor(p, merged);
        if missing != [] {
          assert MissingFor(p, UpsertMerged(old(rows), merchant, p, request)) != [];
          return Err(Api(BAD_REQUEST, "Missing required config values for " + ProviderName(p) + ": " + Join(", ", missing)));
        }
      }
      r := Store(merchant, p, request, enabled, merged);
    }

    /** The accepted half of `upsert`: the merged row is saved, replacing any
        stored one, and its view masks the secret fields. */
    method Store(merchant: string, p: Provider, request: Option<ConfigRequest>, enabled: bool, merged: Config)
        returns (r: Result<ConfigView, Failure>)
      requires Valid() && merchant in merchants && p != DEMO && SchemaOf(p).Some?
      requires enabled == RequestedEnabled(request) && merged == UpsertMerged(rows, merchant, p, request)
      requires !(enabled && MissingFor(p, merged) != [])
      modifies this`rows
      ensures Valid()
      ensures var row := Row(enabled, merged);
        rows == old(rows)[(merchant, p) := row] && r == Ok(RowView(p, row))
    {
      var masked := MaskConfig(SchemaOf(p), Some(merged));
      var row := Row(enabled, merged);
      UpsertKeepsRowsOk(rows, merchant, p, request);
      SaveRow((merchant, p), row);
      r := Ok(ConfigView(p, enabled, masked, true));
      assert r == Ok(RowView(p, row));
    }

    /** `configRepository.save`: the row replaces any under the same key. */
    method SaveRow(key: (string, Provider), row: Row)
      requires RowsOk(rows[key := row])
      modifies this`rows
      ensures Valid()
      ensures rows == old(rows)[key := row]
    {
      rows := rows[key := row];
    }

    /** `disable`: clear the flag of the merchant's row and keep its map;
        with no row nothing is created. */
    method Disable(merchant: string, p: Provider) returns (r: Result<ConfigView, Failure>)
      requires Valid()
      modifies this`rows
      ensures Valid()
      ensures merchant !in merchants ==> r == Err(MerchantNotFound) && rows == old(rows)
      ensures merchant in merchants && p == DEMO ==> r == Ok(DemoView) && rows == old(rows)
      ensures merchant in merchants && p != DEMO && SchemaOf(p).None? ==>
        r.Err? && r.error.Api? && r.error.status == BAD_REQUEST && rows == old(rows)
      ensures merchant in merchants && p != DEMO && SchemaOf(p).Some? && (merchant, p) !in old(rows) ==>
        r == Ok(EmptyView(p)) && rows == old(rows)
      ensures merchant in merchants && p != DEMO && SchemaOf(p).Some? && (merchant, p) in old(rows) ==>
        (var row := Row(false, old(rows)[(merchant, p)].config);
         rows == old(rows)[(merchant, p) := row] && r == Ok(RowView(p, row)))
    {
      if merchant !in merchants {
        return Err(MerchantNotFound);
      }
      if p == DEMO {
        return Ok(DemoView);
      }
      var schema := SchemaOf(p);
      if schema.None? {
        return Err(Api(BAD_REQUEST, "Provider not supported for config: " + ProviderName(p)));
      }
      if (merchant, p) !in rows {
        return Ok(EmptyView(p));
      }
      DisableKeepsRowsOk(rows, (merchant, p));
      var config := rows[(merchant, p)].config;
      SaveRow((merchant, p), Row(false, config));
      var masked := MaskConfig(schema, Some(config));
      r := Ok(ConfigView(p, false, masked, true));
    }

    /** `find`: the merchant's row for `p`, unmasked; the merchant is not
        checked. */
    method Find(merchant: string, p: Provider) returns (r: Option<MerchantProviderConfig>)
      ensures r.Some? <==> (merchant, p) in rows
      ensures r.Some? ==> r.value == MerchantProviderConfig(p, rows[(merchant, p)].enabled, rows[(merchant, p)].config)
    {
      if (merchant, p) in rows {
        var row := rows[(merchant, p)];
        return Some(MerchantProviderConfig(p, row.enabled, row.config));
      }
      return None;
    }
  }

  /** An enabled row found for an adapter carries every required key. */
  lemma FoundEnabledIsComplete(rows: Rows, merchant: string, p: Provider)
    requires RowsOk(rows) && (merchant, p) in rows && rows[(merchant, p)].enabled
    ensures forall k :: k in SchemaOf(p).value.required ==> HasValue(Some(rows[(merchant, p)].config), k)
  {
    assert MissingFor(p, rows[(merchant, p)].config) == [];
  }
}
