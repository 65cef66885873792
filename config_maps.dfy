/**
 * The credential maps both provider-configuration services work on: the
 * request merge, the required-key check, and masking for display. A
 * request's map may hold null values (`RawConfig`); a stored map does not
 * (`Config`).
 */
module ConfigMaps {
  import opened Wrappers
  import opened JavaString
  import opened Queries

  type Config = map<string, string>
  type RawConfig = map<string, Option<string>>

  /** The keys a provider's credentials consist of. */
  datatype Schema = Schema(required: seq<string>, optional: seq<string>)

  /** The key holds a non-null, non-blank value. */
  predicate Present(m: RawConfig, k: string) {
    k in m && !IsNullOrBlank(m[k])
  }

  /** A stored map viewed as a request map. */
  function ToRaw(c: Config): (r: RawConfig)
    ensures forall k :: k in r <==> k in c
    ensures forall k :: k in c ==> r[k] == Some(c[k])
  {
    map k | k in c :: Some(c[k])
  }

  /** The non-blank entries of a possibly null map, trimmed. */
  function Kept(m: Option<RawConfig>): (r: Config)
    ensures forall k :: k in r <==> m.Some? && Present(m.value, k)
    ensures forall k :: k in r ==> m.Some? && k in m.value && m.value[k].Some? && r[k] == Trim(m.value[k].value)
  {
    if m.None? then map[] else map k | k in m.value && Present(m.value, k) :: Trim(m.value[k].value)
  }

  /** `mergeConfig`: the kept base entries overridden by the kept updates. */
  function Merged(base: Option<RawConfig>, updates: Option<RawConfig>): Config {
    Kept(base) + Kept(updates)
  }

  /** A non-blank update wins, trimmed. */
  lemma MergeUpdateWins(base: Option<RawConfig>, updates: Option<RawConfig>, k: string)
    requires updates.Some? && Present(updates.value, k)
    ensures k in Merged(base, updates) && Merged(base, updates)[k] == Trim(updates.value[k].value)
  {
  }

  /** A blank, null or missing update never erases or alters a base value:
      the key keeps the trimmed base value, or stays absent. */
  lemma MergeBlankUpdateKeeps(base: Option<RawConfig>, updates: Option<RawConfig>, k: string)
    requires !(updates.Some? && Present(updates.value, k))
    ensures k in Merged(base, updates) <==> base.Some? && Present(base.value, k)
    ensures k in Merged(base, updates) ==> Merged(base, updates)[k] == Trim(base.value[k].value)
  {
  }

  /** Every merged value is already trimmed, so merging a merged map again
      with nothing changes nothing. */
  lemma MergedValuesTrimmed(base: Option<RawConfig>, updates: Option<RawConfig>)
    ensures forall k :: k in Merged(base, updates) ==> Trim(Merged(base, updates)[k]) == Merged(base, updates)[k]
  {
    var m := Merged(base, updates);
    forall k | k in m ensures Trim(m[k]) == m[k] {
      if updates.Some? && Present(updates.value, k) {
        TrimIdempotent(updates.value[k].value);
      } else {
        TrimIdempotent(base.value[k].value);
      }
    }
  }

  /** One `forEach` pass of `mergeConfig`: put every non-blank entry of
      `m`, trimmed, into `acc`. */
  method PutNonBlank(acc: Config, m: RawConfig) returns (r: Config)
    ensures r == acc + Kept(Some(m))
  {
    r := acc;
    var todo := m.Keys;
    ghost var done: set<string> := {};
    while todo != {}
      invariant todo <= m.Keys && done == m.Keys - todo
      invariant forall k :: k in r <==> k in acc || (k in done && Present(m, k))
      invariant forall k :: k in done && Present(m, k) ==> r[k] == Trim(m[k].value)
      invariant forall k :: k in acc && !(k in done && Present(m, k)) ==> r[k] == acc[k]
      decreases todo
    {
      var k :| k in todo;
      var value := m[k];
      if !IsNullOrBlank(value) {
        r := r[k := Trim(value.value)];
      }
      todo := todo - {k};
      done := done + {k};
    }
    var expected := acc + Kept(Some(m));
    assert forall k :: k in r <==> k in expected;
    assert forall k :: k in r ==> r[k] == expected[k];
    MapExt(r, expected);
  }

  /** `mergeConfig`: the base pass, then the updates pass. */
  method MergeConfig(base: Option<RawConfig>, updates: Option<RawConfig>) returns (merged: Config)
    ensures merged == Merged(base, updates)
  {
    merged := map[];
    if base.Some? {
      merged := PutNonBlank(merged, base.value);
    }
    assert merged == Kept(base);
    if updates.Some? {
      merged := PutNonBlank(merged, updates.value);
    }
  }

  /** `config == null ? null : config.get(k)` */
  function ValueOf(config: Option<Config>, k: string): (r: Option<string>)
    ensures r.Some? <==> config.Some? && k in config.value
    ensures r.Some? ==> r.value == config.value[k]
  {
    if config.None? || k !in config.value then None else Some(config.value[k])
  }

  /** The configuration holds a non-blank value under `k`. */
  predicate HasValue(config: Option<Config>, k: string) {
    !IsNullOrBlank(ValueOf(config, k))
  }

  /** The required keys, in schema order, that are absent or blank. */
  function Missing(required: seq<string>, config: Option<Config>): (r: seq<string>)
    ensures |r| <= |required|
  {
    if required == [] then []
    else
      var k := required[0];
      (if HasValue(config, k) then [] else [k]) + Missing(required[1..], config)
  }

  /** Exactly the required keys without a value are missing. */
  lemma {:induction false} MissingMembers(required: seq<string>, config: Option<Config>)
    ensures forall k :: k in Missing(required, config) <==> k in required && !HasValue(config, k)
  {
    if required != [] {
      MissingMembers(required[1..], config);
      assert required == [required[0]] + required[1..];
    }
  }

  /** The filter distributes over concatenation. */
  lemma {:induction false} MissingAppend(a: seq<string>, b: seq<string>, config: Option<Config>)
    ensures Missing(a + b, config) == Missing(a, config) + Missing(b, config)
  {
    if a != [] {
      assert (a + b)[0] == a[0] && (a + b)[1..] == a[1..] + b;
      MissingAppend(a[1..], b, config);
      var head := if HasValue(config, a[0]) then [] else [a[0]];
      assert Missing(a + b, config) == head + Missing(a[1..] + b, config);
      assert Missing(a, config) == head + Missing(a[1..], config);
      AppendAssoc(head, Missing(a[1..], config), Missing(b, config));
    } else {
      assert a + b == b;
      AppendEmpty(Missing(b, config));
    }
  }

  lemma {:induction false} MissingOfEmpty(required: seq<string>)
    ensures Missing(required, Some(map[])) == required
  {
    if required != [] {
      MissingOfEmpty(required[1..]);
      assert required == [required[0]] + required[1..];
    }
  }

  /** `missingRequiredFields`: the loop over the required keys; no schema
      means nothing is missing. */
  method MissingRequiredFields(schema: Option<Schema>, config: Option<Config>) returns (missing: seq<string>)
    ensures schema.None? ==> missing == []
    ensures schema.Some? ==> missing == Missing(schema.value.required, config)
  {
    missing := [];
    if schema.None? {
      return;
    }
    var required := schema.value.required;
    var i := 0;
    while i < |required|
      invariant 0 <= i <= |required|
      invariant missing == Missing(required[..i], config)
    {
      var key := required[i];
      assert required[..i + 1] == required[..i] + [key];
      MissingAppend(required[..i], [key], config);
      var value := ValueOf(config, key);
      if IsNullOrBlank(value) {
        missing := missing + [key];
      }
      i := i + 1;
    }
    assert required[..i] == required;
  }

  /** `maskValue`: up to four characters of the trimmed value, "****", and
      up to four more from its end. */
  function MaskValue(raw: string): (r: string)
    ensures var t := Trim(raw);
      (|t| <= 4 ==> r == "****")
      && (|t| > 4 ==>
          |r| == 8 + Min(4, |t| - 4)
          && r[..4] == t[..4] && r[4..8] == "****" && r[8..] == t[|t| - (|r| - 8)..])
  {
    var trimmed := Trim(raw);
    if |trimmed| <= 4 then "****"
    else
      var head := Min(4, |trimmed|);
      var tail := Min(4, |trimmed| - head);
      var prefix := trimmed[..head];
      var suffix := if tail > 0 then trimmed[|trimmed| - tail..] else "";
      prefix + "****" + suffix
  }

  function Min(a: int, b: int): int {
    if a <= b then a else b
  }

  /** A value of five to eight characters is revealed in full around the
      stars; a longer one is never shown whole. */
  lemma MaskReveals(raw: string)
    ensures var t := Trim(raw); var r := MaskValue(raw);
      (5 <= |t| <= 8 ==> t == r[..4] + r[8..])
      && (|t| > 8 ==> |r| == 12 && |r| < |t| + 4)
      && (|t| > 12 ==> |r| < |t|)
  {
    var t := Trim(raw);
    var r := MaskValue(raw);
    if 5 <= |t| <= 8 {
      assert r[8..] == t[4..];
      assert t == t[..4] + t[4..];
    }
  }

  /** `maskConfig`: the schema's keys (required, then optional) with a
      non-blank value, each masked; nothing without a schema or a map. */
  function Masked(schema: Option<Schema>, config: Option<Config>): (r: Config)
    ensures forall k :: k in r <==>
      (schema.Some? && (k in schema.value.required || k in schema.value.optional) && HasValue(config, k))
    ensures forall k :: k in r ==> config.Some? && k in config.value && r[k] == MaskValue(config.value[k])
  {
    if schema.None? || config.None? then map[]
    else
      var keys := schema.value.required + schema.value.optional;
      map k | k in keys && HasValue(config, k) :: MaskValue(config.value[k])
  }

  /** `maskConfig`: the loop over the schema's keys. */
  method MaskConfig(schema: Option<Schema>, config: Option<Config>) returns (masked: Config)
    ensures masked == Masked(schema, config)
  {
    masked := map[];
    if schema.None? || config.None? {
      return;
    }
    var keys := schema.value.required + schema.value.optional;
    var cfg := config.value;
    var i := 0;
    while i < |keys|
      invariant 0 <= i <= |keys|
      invariant forall k :: k in masked <==> k in keys[..i] && HasValue(config, k)
      invariant forall k :: k in masked ==> k in cfg && masked[k] == MaskValue(cfg[k])
    {
      var key := keys[i];
      if key in cfg && !IsBlank(cfg[key]) {
        masked := masked[key := MaskValue(cfg[key])];
      }
      TakeSnoc(keys, i);
      i := i + 1;
    }
    TakeAll(keys);
    var expected := Masked(schema, config);
    assert forall k :: k in masked <==> k in expected;
    assert forall k :: k in masked ==> masked[k] == expected[k];
    MapExt(masked, expected);
  }
}
