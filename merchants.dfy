/**
 * `MerchantService`: creating a merchant with a fresh API key whose SHA-256
 * hex is all that is stored, and patching a merchant's routing
 * configuration, which is kept as JSON text. The JSON mapper is the pair of
 * functions `write` and `parse`; the random bytes and the new row's id are
 * inputs.
 */
module Merchants {
  import opened Wrappers
  import opened Domain
  import opened JavaString
  import opened Fnv
  import opened Routing
  import Base64
  import Sha256

  type Uuid = string

  datatype Merchant = Merchant(id: Uuid, name: string, apiKeyHash: string, configJson: Option<string>)

  /** `RoutingConfigPatch`: a null field leaves the current value alone. */
  datatype Patch = Patch(forceProvider: Option<string>, weights: Option<Weights>, costModel: Option<map<Provider, real>>)

  const API_KEY_PREFIX: string := "po_demo_"

  /** `generateApiKey`: the prefix, then the 24 random bytes in unpadded base64url. */
  function ApiKey(random: seq<byte>): (k: string)
    requires |random| == 24
    ensures |k| == 40 && k[..8] == API_KEY_PREFIX
    ensures forall i :: 8 <= i < |k| ==> Base64.InAlphabet(Base64.UrlSafe, k[i])
  {
    var body := Base64.Encode(Base64.UrlSafe, false, random);
    assert forall i :: 8 <= i < 40 ==> (API_KEY_PREFIX + body)[i] == body[i - 8];
    API_KEY_PREFIX + body
  }

  /** The key carries its random bytes: the text after the prefix decodes to them. */
  lemma ApiKeyCarriesRandom(random: seq<byte>)
    requires |random| == 24
    ensures Base64.Decode(Base64.UrlSafe, ApiKey(random)[8..]) == Some(random)
  {
    var body := Base64.Encode(Base64.UrlSafe, false, random);
    assert ApiKey(random)[8..] == body;
    Base64.DecodeEncode(Base64.UrlSafe, random);
  }

  /** Different random bytes give different keys. */
  lemma ApiKeyInjective(r1: seq<byte>, r2: seq<byte>)
    requires |r1| == 24 && |r2| == 24
    requires ApiKey(r1) == ApiKey(r2)
    ensures r1 == r2
  {
    ApiKeyCarriesRandom(r1);
    ApiKeyCarriesRandom(r2);
  }

  /** `readConfig`: the defaults for a null or blank text, a text the mapper
      refuses, or the literal `null`; otherwise the parsed config as it is,
      with no field filled in. */
  function ReadConfig(json: Option<string>, parse: string -> ParseOutcome<RoutingConfig>): (cfg: RoutingConfig)
    ensures IsNullOrBlank(json) ==> cfg == Defaults
    ensures !IsNullOrBlank(json) ==>
      cfg == (if parse(json.value).Parsed? then parse(json.value).value else Defaults)
  {
    if IsNullOrBlank(json) then Defaults
    else match parse(json.value)
      case Malformed => Defaults
      case JsonNull => Defaults
      case Parsed(c) => c
  }

  /** Unlike the routing engine's reading of the same text, `readConfig`
      keeps a null weights object or cost model as null. */
  lemma ReadConfigKeepsNulls(json: string, parse: string -> ParseOutcome<RoutingConfig>)
    requires !IsBlank(json) && parse(json).Parsed? && parse(json).value.weights.None?
    ensures ReadConfig(Some(json), parse).weights.None?
    ensures ParseConfig(Some(json), parse).weights == Some(DefaultWeights)
  {
  }

  /** Reading back what was written gives the config, when the mapper's
      writing is undone by its parsing. */
  lemma ReadAfterWrite(c: RoutingConfig, write: RoutingConfig -> string, parse: string -> ParseOutcome<RoutingConfig>)
    requires !IsBlank(write(c)) && parse(write(c)) == Parsed(c)
    ensures ReadConfig(Some(write(c)), parse) == c
  {
  }

  /** The patch merge of `updateRoutingConfig`. */
  function Patched(current: RoutingConfig, patch: Patch): (next: RoutingConfig)
  {
    RoutingConfig(
      if patch.forceProvider.None? then current.forceProvider else patch.forceProvider,
      if patch.weights.None? then current.weights else patch.weights,
      if patch.costModel.None? then current.costModel else patch.costModel)
  }

  /** A field the patch gives replaces the current one; a field it leaves
      null keeps the current one. */
  lemma PatchedFields(current: RoutingConfig, patch: Patch)
    ensures patch.forceProvider.Some? ==> Patched(current, patch).forceProvider == patch.forceProvider
    ensures patch.forceProvider.None? ==> Patched(current, patch).forceProvider == current.forceProvider
    ensures patch.weights.Some? ==> Patched(current, patch).weights == patch.weights
    ensures patch.weights.None? ==> Patched(current, patch).weights == current.weights
    ensures patch.costModel.Some? ==> Patched(current, patch).costModel == patch.costModel
    ensures patch.costModel.None? ==> Patched(current, patch).costModel == current.costModel
  {
  }

  /** The patch with every field null. */
  const EmptyPatch: Patch := Patch(None, None, None)

  /** One patch followed by another: the later one's fields win. */
  function Then(first: Patch, second: Patch): Patch {
    Patch(
      if second.forceProvider.Some? then second.forceProvider else first.forceProvider,
      if second.weights.Some? then second.weights else first.weights,
      if second.costModel.Some? then second.costModel else first.costModel)
  }

  /** An empty patch changes nothing, a patch applied twice is applied once,
      and two patches in a row are one combined patch. */
  lemma PatchAlgebra(c: RoutingConfig, p: Patch, q: Patch)
    ensures Patched(c, EmptyPatch) == c
    ensures Patched(Patched(c, p), p) == Patched(c, p)
    ensures Patched(Patched(c, p), q) == Patched(c, Then(p, q))
  {
  }

  /** Two updates in a row, with a mapper whose writing its parsing undoes,
      leave the config the combined patch makes of the first one read. */
  lemma UpdatesCompose(json: Option<string>, p: Patch, q: Patch,
                       write: RoutingConfig -> string, parse: string -> ParseOutcome<RoutingConfig>)
    requires forall c :: !IsBlank(write(c)) && parse(write(c)) == Parsed(c)
    ensures ReadConfig(Some(write(Patched(ReadConfig(Some(write(Patched(ReadConfig(json, parse), p))), parse), q))), parse)
         == Patched(ReadConfig(json, parse), Then(p, q))
  {
    var c1 := Patched(ReadConfig(json, parse), p);
    ReadAfterWrite(c1, write, parse);
    var c2 := Patched(c1, q);
    ReadAfterWrite(c2, write, parse);
  }

  /** A new merchant's stored config reads as the defaults whatever the
      mapper makes of it, unless it parses to some other config. */
  lemma NewMerchantReadsDefaults(write: RoutingConfig -> string, parse: string -> ParseOutcome<RoutingConfig>)
    requires parse(write(Defaults)).Parsed? ==> parse(write(Defaults)).value == Defaults
    ensures ReadConfig(Some(write(Defaults)), parse) == Defaults
  {
  }

  class MerchantService {
    var merchants: map<Uuid, Merchant>
    const write: RoutingConfig -> string
    const parse: string -> ParseOutcome<RoutingConfig>
    const digest: seq<byte> -> Sha256.Digest

    constructor (write: RoutingConfig -> string, parse: string -> ParseOutcome<RoutingConfig>, digest: seq<byte> -> Sha256.Digest)
      ensures this.write == write && this.parse == parse && this.digest == digest
      ensures merchants == map[]
    {
      this.write := write;
      this.parse := parse;
      this.digest := digest;
      merchants := map[];
    }

    /** `create`: the row stores the key's SHA-256 hex and the default
        config; the key itself is only returned. */
    method Create(name: string, id: Uuid, random: seq<byte>) returns (created: Merchant, apiKey: string)
      requires |random| == 24
      requires id !in merchants
      modifies this
      ensures apiKey == ApiKey(random)
      ensures created == Merchant(id, name, Sha256.HexText(digest(Utf8(apiKey))), Some(write(Defaults)))
      ensures merchants == old(merchants)[id := created]
      ensures |created.apiKeyHash| == 64 && created.apiKeyHash != apiKey
    {
      apiKey := ApiKey(random);
      var hash := Sha256.Hex(apiKey, digest);
      created := Merchant(id, name, hash, Some(write(Defaults)));
      merchants := merchants[id := created];
    }

    /** `updateRoutingConfig`: an unknown merchant is refused and nothing
        changes; otherwise the stored config is read, patched and written
        back. */
    method UpdateRoutingConfig(merchantId: Uuid, patch: Patch) returns (r: Result<Merchant, Failure>)
      modifies this
      ensures merchantId !in old(merchants) ==>
        r == Err(IllegalArgument("merchant not found")) && merchants == old(merchants)
      ensures merchantId in old(merchants) ==>
        var m := old(merchants)[merchantId];
        && r == Ok(m.(configJson := Some(write(Patched(ReadConfig(m.configJson, parse), patch)))))
        && merchants == old(merchants)[merchantId := r.value]
    {
      if merchantId !in merchants {
        return Err(IllegalArgument("merchant not found"));
      }
      var merchant := merchants[merchantId];
      var current := ReadConfig(merchant.configJson, parse);
      var next := Patched(current, patch);
      merchant := merchant.(configJson := Some(write(next)));
      merchants := merchants[merchantId := merchant];
      r := Ok(merchant);
    }
  }
}
