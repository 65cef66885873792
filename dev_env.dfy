/**
 * The pure parts of the development launcher `scripts/dev.mjs`: reading the
 * `.env` file, merging it under the process environment, checking the
 * encryption key, and deriving the backend URL host and the numeric
 * settings. JavaScript's `Number` is the function `number`, giving `None`
 * for a result that is not finite.
 */
module DevEnv {
  import opened Wrappers
  import opened JavaString
  import opened Fnv
  import Base64

  type Env = map<string, string>

  /** The characters `String.prototype.trim` removes: white space and line
      terminators. */
  predicate JsSpace(c: char) {
    c == ' ' || c == '\t' || c == '\n' || c == '\r' || c == '\U{000B}' || c == '\U{000C}'
    || c == '\U{00A0}' || c == '\U{FEFF}' || c == '\U{1680}' || ('\U{2000}' <= c <= '\U{200A}')
    || c == '\U{2028}' || c == '\U{2029}' || c == '\U{202F}' || c == '\U{205F}' || c == '\U{3000}'
  }

  function TrimStart(s: string): (r: string)
    ensures |r| <= |s| && r == s[|s| - |r|..]
    ensures r == [] || !JsSpace(r[0])
  {
    if s != [] && JsSpace(s[0]) then TrimStart(s[1..]) else s
  }

  function TrimEnd(s: string): (r: string)
    ensures |r| <= |s| && r == s[..|r|]
    ensures r == [] || !JsSpace(r[|r| - 1])
  {
    if s != [] && JsSpace(s[|s| - 1]) then TrimEnd(s[..|s| - 1]) else s
  }

  /** `trim` */
  function JsTrim(s: string): (r: string)
    ensures r == [] || (!JsSpace(r[0]) && !JsSpace(r[|r| - 1]))
  {
    var t := TrimStart(s);
    var r := TrimEnd(t);
    assert r != [] ==> r[0] == t[0];
    r
  }

  /** `raw.split(/\r?\n/)`: pieces between line feeds, each without the
      carriage return just before its line feed. */
  function Lines(raw: string): (r: seq<string>)
    ensures |r| >= 1 && forall k :: 0 <= k < |r| ==> '\n' !in r[k]
    ensures '\n' !in raw ==> r == [raw]
  {
    var pieces := SplitAll(raw, '\n');
    assert '\n' !in raw ==> pieces == [raw] by {
      if '\n' !in raw {
        SplitAllNoSep(raw, '\n');
      }
    }
    seq(|pieces|, k requires 0 <= k < |pieces| =>
      if k < |pieces| - 1 && pieces[k] != [] && pieces[k][|pieces[k]| - 1] == '\r'
      then pieces[k][..|pieces[k]| - 1] else pieces[k])
  }

  /** The index of the first '=' (`indexOf`), if any. */
  function IndexOf(s: string, c: char): (r: Option<nat>)
    ensures r.None? <==> c !in s
    ensures r.Some? ==> r.value < |s| && s[r.value] == c && c !in s[..r.value]
  {
    if s == [] then None
    else if s[0] == c then Some(0)
    else match IndexOf(s[1..], c)
      case None => None
      case Some(k) => assert s[1..][..k] == s[1..k + 1]; Some(k + 1)
  }

  /** One pair of matching double or single quotes taken off: `slice(1, -1)`,
      which leaves nothing of a lone quote. */
  function Unquoted(v: string): (r: string)
    ensures r == v || (v != [] && v[0] == v[|v| - 1] && (v[0] == '"' || v[0] == '\''))
    ensures r != v ==> |r| == if |v| >= 2 then |v| - 2 else 0
    ensures r != v && |v| >= 2 ==> v == [v[0]] + r + [v[0]]
  {
    if v != [] && ((v[0] == '"' && v[|v| - 1] == '"') || (v[0] == '\'' && v[|v| - 1] == '\''))
    then (if |v| >= 2 then v[1..|v| - 1] else "")
    else v
  }

  /** The entry a line of the file gives, if any: blank lines, comments
      and lines without '=' give none. */
  function ParseLine(line: string): (r: Option<(string, string)>)
    ensures r.Some? ==> '=' !in r.value.0
    ensures r.None? <==>
      (JsTrim(line) == "" || JsTrim(line)[0] == '#' || '=' !in JsTrim(line))
  {
    var trimmed := JsTrim(line);
    if trimmed == "" || trimmed[0] == '#' then None
    else match IndexOf(trimmed, '=')
      case None => None
      case Some(eq) =>
        var key := JsTrim(trimmed[..eq]);
        assert '=' !in key by {
          assert TrimEnd(TrimStart(trimmed[..eq])) == key;
        }
        Some((key, Unquoted(JsTrim(trimmed[eq + 1..]))))
  }

  /** Only one pair of quotes is taken off, and only a matching pair. */
  lemma UnquotedOnePair()
    ensures Unquoted("\"\"x\"\"") == "\"x\""
    ensures Unquoted("'x\"") == "'x\""
    ensures Unquoted("\"") == ""
  {
  }

  /** The key is what precedes the first '=' and everything after it,
      later '=' included, is the value. */
  lemma KeyBeforeFirstEquals(k: string, v: string)
    requires k != [] && k[0] != '#' && !JsSpace(k[0]) && '=' !in k
    requires v == [] || !JsSpace(v[|v| - 1])
    ensures ParseLine(k + "=" + v) == Some((JsTrim(k), Unquoted(JsTrim(v))))
  {
    var t := k + "=" + v;
    assert t[0] == k[0];
    assert TrimStart(t) == t;
    assert t[|t| - 1] == (if v == [] then '=' else v[|v| - 1]);
    assert TrimEnd(t) == t;
    var r := IndexOf(t, '=');
    assert t[|k|] == '=';
    assert r == Some(|k|);
    assert t[..|k|] == k && t[|k| + 1..] == v;
  }

  type Entry = Option<(string, string)>

  /** The entry of each line. */
  function Entries(lines: seq<string>): (es: seq<Entry>)
    ensures |es| == |lines| && forall k :: 0 <= k < |lines| ==> es[k] == ParseLine(lines[k])
  {
    seq(|lines|, k requires 0 <= k < |lines| => ParseLine(lines[k]))
  }

  /** The object built from the entries so far: each assigned in turn. */
  function EnvFrom(es: seq<Entry>): Env {
    if es == [] then map[] else Assign(EnvFrom(es[..|es| - 1]), es[|es| - 1])
  }

  /** `env[key] = value` for an entry. */
  function Assign(env: Env, e: Entry): Env {
    if e.None? then env else env[e.value.0 := e.value.1]
  }

  lemma EnvFromPrefix(es: seq<Entry>, i: int)
    requires 0 <= i < |es|
    ensures EnvFrom(es[..i + 1]) == Assign(EnvFrom(es[..i]), es[i])
  {
    assert es[..i + 1][..i] == es[..i];
  }

  /** The last entry for a key gives its value; later entries for other
      keys, and lines giving none, do not matter. */
  lemma {:induction false} LastDefinitionWins(es: seq<Entry>, i: int, key: string, value: string)
    requires 0 <= i < |es| && es[i] == Some((key, value))
    requires forall j :: i < j < |es| ==> es[j].None? || es[j].value.0 != key
    ensures key in EnvFrom(es) && EnvFrom(es)[key] == value
    decreases |es|
  {
    var n := |es| - 1;
    if i < n {
      var prefix := es[..n];
      assert forall j :: i < j < |prefix| ==> prefix[j] == es[j];
      LastDefinitionWins(prefix, i, key, value);
    }
  }

  /** A key is defined exactly when some entry is for it. */
  lemma {:induction false} DefinedKeys(es: seq<Entry>, key: string)
    ensures key in EnvFrom(es) <==> exists j :: 0 <= j < |es| && es[j].Some? && es[j].value.0 == key
    decreases |es|
  {
    if es != [] {
      var n := |es| - 1;
      var prefix := es[..n];
      DefinedKeys(prefix, key);
      if key in EnvFrom(prefix) {
        var j :| 0 <= j < |prefix| && prefix[j].Some? && prefix[j].value.0 == key;
        assert es[j] == prefix[j];
      }
      if exists j :: 0 <= j < |es| && es[j].Some? && es[j].value.0 == key {
        var j :| 0 <= j < |es| && es[j].Some? && es[j].value.0 == key;
        if j < n {
          assert prefix[j] == es[j];
        }
      }
    }
  }

  /** A line giving no entry leaves the object as it was. */
  lemma SkippedLine(lines: seq<string>, line: string)
    requires ParseLine(line).None?
    ensures EnvFrom(Entries(lines + [line])) == EnvFrom(Entries(lines))
  {
    var es := Entries(lines + [line]);
    assert es[..|lines|] == Entries(lines);
  }

  /** `readEnvFile`: a missing file gives the empty object; otherwise each
      line's entry is assigned in order. */
  method ReadEnvFile(file: Option<string>) returns (env: Env)
    ensures file.None? ==> env == map[]
    ensures file.Some? ==> env == EnvFrom(Entries(Lines(file.value)))
  {
    if file.None? {
      return map[];
    }
    var lines := Lines(file.value);
    ghost var es := Entries(lines);
    env := map[];
    var i := 0;
    while i < |lines|
      invariant 0 <= i <= |lines|
      invariant env == EnvFrom(es[..i])
    {
      EnvFromPrefix(es, i);
      var entry := ParseLine(lines[i]);
      if entry.Some? {
        env := env[entry.value.0 := entry.value.1];
      }
      i := i + 1;
    }
    assert es[..i] == es;
  }

  /** The launcher's environment: the process environment, plus the file's
      entries for keys the process environment does not define. */
  function Merged(processEnv: Env, fromFile: Env): (env: Env)
    ensures env.Keys == processEnv.Keys + fromFile.Keys
    ensures forall k :: k in processEnv ==> env[k] == processEnv[k]
    ensures forall k :: k in fromFile && k !in processEnv ==> env[k] == fromFile[k]
  {
    map k | k in processEnv.Keys + fromFile.Keys :: if k in processEnv then processEnv[k] else fromFile[k]
  }

  /** `!env.X`: undefined or the empty string. */
  predicate Unset(env: Env, key: string) {
    key !in env || env[key] == ""
  }

  /** The Spring profile defaults to "dev". */
  function WithDefaultProfile(env: Env): (r: Env)
    ensures !Unset(r, "SPRING_PROFILES_ACTIVE")
    ensures !Unset(env, "SPRING_PROFILES_ACTIVE") ==> r == env
  {
    if Unset(env, "SPRING_PROFILES_ACTIVE") then env["SPRING_PROFILES_ACTIVE" := "dev"] else env
  }

  /** `isValidBase64Key32`: the standard alphabet with at most two '=' at
      the end, a length that is a multiple of four, and 32 decoded bytes. */
  predicate IsValidBase64Key32(s: string)
    ensures IsValidBase64Key32(s) ==> |s| == 44 && s[43] == '=' && s[42] != '='
  {
    var ok := Base64.StandardShape(s) && |s| % 4 == 0 && Base64.NodeDecodedLength(s) == 32;
    assert ok ==> |s| == 44 && s[43] == '=' && s[42] != '=' by {
      if ok {
        var n :| 1 <= n <= |s| && |s| - n <= 2 && Base64.StandardShapeAt(s, n);
        Base64.ShapePadding(s, n);
        var m := |s| / 4;
        assert |s| == 4 * m;
        assert 3 * |s| / 4 == 3 * m;
        assert n == 43;
      }
    }
    ok
  }

  /** A valid key is 43 characters of the alphabet and one '='. */
  lemma ValidKeyShape(s: string)
    ensures IsValidBase64Key32(s) <==>
      |s| == 44 && s[43] == '=' && forall k :: 0 <= k < 43 ==> Base64.InAlphabet(Base64.Standard, s[k])
  {
    if IsValidBase64Key32(s) {
      var n :| 1 <= n <= |s| && |s| - n <= 2 && Base64.StandardShapeAt(s, n);
      Base64.ShapePadding(s, n);
      var m := |s| / 4;
      assert |s| == 4 * m;
      assert 3 * |s| / 4 == 3 * m;
      assert n == 43;
    }
    if |s| == 44 && s[43] == '=' && forall k :: 0 <= k < 43 ==> Base64.InAlphabet(Base64.Standard, s[k]) {
      assert Base64.StandardShapeAt(s, 43);
      Base64.ShapePadding(s, 43);
    }
  }

  /** The fallback key, 32 random bytes in padded base64, passes the check. */
  lemma GeneratedKeyIsValid(b: seq<byte>)
    requires |b| == 32
    ensures IsValidBase64Key32(Base64.Encode(Base64.Standard, true, b))
  {
    var u := Base64.Unpadded(Base64.Standard, b);
    var s := u + Base64.PadFor(|b|);
    assert Base64.Encode(Base64.Standard, true, b) == s;
    assert |u| == 43 && Base64.PadFor(|b|) == "=";
    forall k | 0 <= k < 43 ensures Base64.InAlphabet(Base64.Standard, s[k]) {
      assert s[k] == u[k];
    }
    ValidKeyShape(s);
  }

  /** `normalizeBackendHost`: the wildcard addresses and "localhost" become
      the loopback address a client can connect to. */
  function NormalizeBackendHost(host: string): (r: string)
    ensures r != host ==> (host == "0.0.0.0" || host == "::" || host == "localhost")
    ensures r != host ==> (r == "127.0.0.1" || r == "::1")
  {
    if host == "0.0.0.0" then "127.0.0.1"
    else if host == "::" then "::1"
    else if host == "localhost" then "127.0.0.1"
    else host
  }

  lemma NormalizeIdempotent(host: string)
    ensures NormalizeBackendHost(NormalizeBackendHost(host)) == NormalizeBackendHost(host)
    ensures NormalizeBackendHost(host) != "0.0.0.0" && NormalizeBackendHost(host) != "::"
    ensures NormalizeBackendHost(host) != "localhost"
  {
  }

  /** `formatHostForUrl`: an IPv6 host not yet in brackets is put in them. */
  function FormatHostForUrl(host: string): (r: string)
    ensures ':' in host && !(host != [] && host[0] == '[') ==> r == "[" + host + "]"
    ensures !(':' in host && !(host != [] && host[0] == '[')) ==> r == host
  {
    if ':' in host && !(host != [] && host[0] == '[') then "[" + host + "]" else host
  }

  /** Formatting twice is formatting once, and a formatted host has no ':'
      outside brackets. */
  lemma FormatIdempotent(host: string)
    ensures FormatHostForUrl(FormatHostForUrl(host)) == FormatHostForUrl(host)
    ensures var r := FormatHostForUrl(host); ':' in r ==> r[0] == '['
  {
  }

  /** `(env.BACKEND_BIND_ADDRESS || "127.0.0.1").trim() || "127.0.0.1"` */
  function BindAddress(env: Env): (r: string)
    ensures r != ""
  {
    var raw := if Unset(env, "BACKEND_BIND_ADDRESS") then "127.0.0.1" else env["BACKEND_BIND_ADDRESS"];
    var t := JsTrim(raw);
    if t == "" then "127.0.0.1" else t
  }

  const DEFAULT_HEALTH_TIMEOUT_MS: real := 120000.0
  const DEFAULT_FRONTEND_PORT: real := 3000.0

  /** `Number(env.BACKEND_HEALTH_TIMEOUT_MS ?? 120000)`, with a non-finite
      or non-positive result replaced by the default. */
  function HealthTimeout(env: Env, number: string -> Option<real>): (r: real)
    ensures r > 0.0
    ensures "BACKEND_HEALTH_TIMEOUT_MS" !in env ==> r == DEFAULT_HEALTH_TIMEOUT_MS
    ensures "BACKEND_HEALTH_TIMEOUT_MS" in env ==>
      var v := number(env["BACKEND_HEALTH_TIMEOUT_MS"]);
      r == if v.Some? && v.value > 0.0 then v.value else DEFAULT_HEALTH_TIMEOUT_MS
  {
    if "BACKEND_HEALTH_TIMEOUT_MS" !in env then DEFAULT_HEALTH_TIMEOUT_MS
    else match number(env["BACKEND_HEALTH_TIMEOUT_MS"])
      case Some(v) => if v > 0.0 then v else DEFAULT_HEALTH_TIMEOUT_MS
      case None => DEFAULT_HEALTH_TIMEOUT_MS
  }

  /** `Number(env.FRONTEND_PORT || env.PORT || "3000")`, with a non-finite
      or non-positive result replaced by 3000. */
  function PreferredFrontendPort(env: Env, number: string -> Option<real>): (r: real)
    ensures r > 0.0
    ensures var raw := if !Unset(env, "FRONTEND_PORT") then env["FRONTEND_PORT"]
                       else if !Unset(env, "PORT") then env["PORT"] else "3000";
      r == if number(raw).Some? && number(raw).value > 0.0 then number(raw).value else DEFAULT_FRONTEND_PORT
  {
    var raw := if !Unset(env, "FRONTEND_PORT") then env["FRONTEND_PORT"]
               else if !Unset(env, "PORT") then env["PORT"] else "3000";
    match number(raw)
    case Some(v) => if v > 0.0 then v else DEFAULT_FRONTEND_PORT
    case None => DEFAULT_FRONTEND_PORT
  }
}
