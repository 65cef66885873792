/**
 * `CorsConfig.resolveAllowedOrigins`: the browser origins allowed to call
 * the API, derived from the frontend base URL. `java.net.URI` is the
 * function `parse`, giving `None` where `URI.create` throws and otherwise
 * the URI's scheme, host (`getHost`, IPv6 literals in brackets) and port
 * (-1 when absent).
 */
module Cors {
  import opened Wrappers
  import opened JavaString

  datatype Uri = Uri(scheme: Option<string>, host: Option<string>, port: int)

  const DefaultOrigins: seq<string> := ["http://localhost:3000", "http://127.0.0.1:3000", "http://[::1]:3000"]

  /** No element twice. */
  predicate NoDuplicates(s: seq<string>) {
    forall i, j :: 0 <= i < j < |s| ==> s[i] != s[j]
  }

  /** `stream().distinct()`: the first occurrence of each element, in order. */
  function Dedup(s: seq<string>): (r: seq<string>)
    ensures NoDuplicates(r)
    ensures forall x :: x in r <==> x in s
  {
    if s == [] then []
    else
      var d := Dedup(s[..|s| - 1]);
      assert forall x :: x in s <==> x in s[..|s| - 1] || x == s[|s| - 1];
      if s[|s| - 1] in d then d else d + [s[|s| - 1]]
  }

  /** The position of the first occurrence. */
  function FirstIndex(s: seq<string>, x: string): (k: nat)
    requires x in s
    ensures k < |s| && s[k] == x && x !in s[..k]
  {
    if s[0] == x then 0 else 1 + FirstIndex(s[1..], x)
  }

  lemma FirstIndexPrefix(s: seq<string>, n: nat, x: string)
    requires n <= |s| && x in s[..n]
    ensures FirstIndex(s, x) == FirstIndex(s[..n], x)
  {
    var k' := FirstIndex(s[..n], x);
    assert s[..n][..k'] == s[..k'];
  }

  /** Distinct elements come out in the order of their first occurrences. */
  lemma {:induction false} DedupKeepsFirstOrder(s: seq<string>)
    ensures forall i, j :: 0 <= i < j < |Dedup(s)| ==> FirstIndex(s, Dedup(s)[i]) < FirstIndex(s, Dedup(s)[j])
  {
    if s != [] {
      var n := |s| - 1;
      var p := s[..n];
      var d := Dedup(p);
      DedupKeepsFirstOrder(p);
      forall x | x in d ensures FirstIndex(s, x) == FirstIndex(p, x) && FirstIndex(s, x) < n {
        FirstIndexPrefix(s, n, x);
      }
      if s[n] !in d {
        assert s[n] !in p;
        assert FirstIndex(s, s[n]) == n;
        var r := d + [s[n]];
        assert r == Dedup(s);
        forall i, j | 0 <= i < j < |r| ensures FirstIndex(s, r[i]) < FirstIndex(s, r[j]) {
          assert r[i] == d[i] && r[i] in d;
          if j < |d| {
            assert r[j] == d[j];
          }
        }
      }
    }
  }

  /** The first element stays first. */
  lemma {:induction false} DedupHead(s: seq<string>)
    requires s != []
    ensures Dedup(s) != [] && Dedup(s)[0] == s[0]
  {
    var r := Dedup(s);
    assert s[0] in r;
    DedupKeepsFirstOrder(s);
  }

  /** The ":port" suffix, empty without a port: one ':' and then the
      port's digits, with no further ':'. */
  function PortPart(port: int): (r: string)
    ensures r == "" <==> port == -1
    ensures r != "" ==> r[0] == ':' && ':' !in r[1..]
  {
    if port == -1 then "" else ":" + LongToString(port)
  }

  /** `origin`: the scheme, "://", the host (in brackets when it contains
      ':'), then the port part. */
  function Origin(scheme: string, host: string, portPart: string): (r: string)
    ensures |r| == |scheme| + 3 + |host| + |portPart| + (if ':' in host then 2 else 0)
    ensures r[..|scheme| + 3] == scheme + "://" && r[|r| - |portPart|..] == portPart
    ensures ':' in host ==> r[|scheme| + 3] == '[' && r[|r| - |portPart| - 1] == ']'
  {
    scheme + "://" + (if ':' in host then "[" + host + "]" else host) + portPart
  }

  /** `isLocalHost`: "localhost" in any case, or one of the two loopback
      literals; a host in brackets, as `getHost` returns an IPv6 literal,
      is never local. */
  predicate IsLocalHost(host: string)
    ensures IsLocalHost(host) ==> host == "::1" || ':' !in host
    ensures host != [] && host[0] == '[' ==> !IsLocalHost(host)
  {
    EqualsIgnoreCase("localhost", host) || host == "127.0.0.1" || host == "::1"
  }

  /** The list built before `distinct`: the URL's own origin, then for a
      local host its three local spellings with the same scheme and port. */
  function Candidates(scheme: string, host: string, portPart: string): seq<string> {
    [Origin(scheme, host, portPart)]
    + (if IsLocalHost(host)
       then [Origin(scheme, "localhost", portPart), Origin(scheme, "127.0.0.1", portPart), Origin(scheme, "::1", portPart)]
       else [])
  }

  /** The URI when the text is not blank, parses, and has a scheme and a host. */
  function ParsedUri(frontendBaseUrl: Option<string>, parse: string -> Option<Uri>): (u: Option<Uri>)
    ensures u.Some? ==> u.value.scheme.Some? && u.value.host.Some?
  {
    if IsNullOrBlank(frontendBaseUrl) then None
    else match parse(Trim(frontendBaseUrl.value))
      case None => None
      case Some(uri) => if uri.scheme.None? || uri.host.None? then None else Some(uri)
  }

  /** The distinct candidates: the origin of the host itself first, then for
      a local host its three local spellings and nothing else, and for any
      other host that one origin alone. */
  lemma {:induction false} DistinctCandidates(scheme: string, host: string, pp: string)
    ensures var r := Dedup(Candidates(scheme, host, pp));
      && r != [] && r[0] == Origin(scheme, host, pp)
      && (IsLocalHost(host) ==> forall o :: o in r <==>
            o in {Origin(scheme, host, pp), Origin(scheme, "localhost", pp), Origin(scheme, "127.0.0.1", pp), Origin(scheme, "::1", pp)})
      && (!IsLocalHost(host) ==> r == [Origin(scheme, host, pp)])
  {
    var c := Candidates(scheme, host, pp);
    DedupHead(c);
    if !IsLocalHost(host) {
      assert c == [c[0]];
      assert Dedup(c) == [c[0]];
    }
  }

  /** `resolveAllowedOrigins` as written: the host as `getHost` returns it,
      so an IPv6 literal keeps its brackets. */
  function AllowedOriginsAsWritten(frontendBaseUrl: Option<string>, parse: string -> Option<Uri>): (r: seq<string>)
    ensures ParsedUri(frontendBaseUrl, parse).None? ==> r == DefaultOrigins
    ensures NoDuplicates(r)
  {
    match ParsedUri(frontendBaseUrl, parse)
    case None => DefaultOrigins
    case Some(uri) => Dedup(Candidates(uri.scheme.value, uri.host.value, PortPart(uri.port)))
  }

  /** As written, for a URL that parses, the first origin is the URL's own
      with the host `getHost` returns; a local host adds its three local
      spellings and nothing else, and any other host gives that one origin
      alone. */
  lemma OriginsOfParsedUrlAsWritten(frontendBaseUrl: Option<string>, parse: string -> Option<Uri>)
    requires ParsedUri(frontendBaseUrl, parse).Some?
    ensures var uri := ParsedUri(frontendBaseUrl, parse).value;
      var scheme, host, pp := uri.scheme.value, uri.host.value, PortPart(uri.port);
      var r := AllowedOriginsAsWritten(frontendBaseUrl, parse);
      && r != [] && r[0] == Origin(scheme, host, pp)
      && (IsLocalHost(host) ==> forall o :: o in r <==>
            o in {Origin(scheme, host, pp), Origin(scheme, "localhost", pp), Origin(scheme, "127.0.0.1", pp), Origin(scheme, "::1", pp)})
      && (!IsLocalHost(host) ==> r == [Origin(scheme, host, pp)])
  {
    var uri := ParsedUri(frontendBaseUrl, parse).value;
    DistinctCandidates(uri.scheme.value, uri.host.value, PortPart(uri.port));
  }

  /** An IPv6 literal without its brackets; any other host unchanged. */
  function Unbracketed(host: string): (h: string)
    ensures host == "[" + h + "]" || h == host
  {
    if |host| >= 2 && host[0] == '[' && host[|host| - 1] == ']' then host[1..|host| - 1] else host
  }

  /** The corrected `resolveAllowedOrigins`: the brackets `getHost` puts
      around an IPv6 literal are taken off before the host is checked and
      rendered. */
  function AllowedOrigins(frontendBaseUrl: Option<string>, parse: string -> Option<Uri>): (r: seq<string>)
    ensures ParsedUri(frontendBaseUrl, parse).None? ==> r == DefaultOrigins
    ensures NoDuplicates(r)
  {
    match ParsedUri(frontendBaseUrl, parse)
    case None => DefaultOrigins
    case Some(uri) => Dedup(Candidates(uri.scheme.value, Unbracketed(uri.host.value), PortPart(uri.port)))
  }

  /** Corrected, for a URL that parses, the first origin is the URL's own
      with the unbracketed host; a local host adds its three local spellings
      and nothing else, and any other host gives that one origin alone. */
  lemma OriginsOfParsedUrl(frontendBaseUrl: Option<string>, parse: string -> Option<Uri>)
    requires ParsedUri(frontendBaseUrl, parse).Some?
    ensures var uri := ParsedUri(frontendBaseUrl, parse).value;
      var scheme, host, pp := uri.scheme.value, Unbracketed(uri.host.value), PortPart(uri.port);
      var r := AllowedOrigins(frontendBaseUrl, parse);
      && r != [] && r[0] == Origin(scheme, host, pp)
      && (IsLocalHost(host) ==> forall o :: o in r <==>
            o in {Origin(scheme, host, pp), Origin(scheme, "localhost", pp), Origin(scheme, "127.0.0.1", pp), Origin(scheme, "::1", pp)})
      && (!IsLocalHost(host) ==> r == [Origin(scheme, host, pp)])
  {
    var uri := ParsedUri(frontendBaseUrl, parse).value;
    DistinctCandidates(uri.scheme.value, Unbracketed(uri.host.value), PortPart(uri.port));
  }

  /** The IPv6 loopback base URL as `java.net.URI` reads it. */
  predicate ReadsLoopbackV6(parse: string -> Option<Uri>) {
    parse("http://[::1]:3000") == Some(Uri(Some("http"), Some("[::1]"), 3000))
  }

  lemma Port3000()
    ensures PortPart(3000) == ":3000"
  {
    assert NatToString(3) == "3";
    assert NatToString(30) == "30";
    assert NatToString(300) == "300";
  }

  /** What `ParsedUri` makes of the IPv6 loopback base URL. */
  lemma LoopbackV6Parsed(parse: string -> Option<Uri>)
    requires ReadsLoopbackV6(parse)
    ensures ParsedUri(Some("http://[::1]:3000"), parse) == Some(Uri(Some("http"), Some("[::1]"), 3000))
  {
    var url := "http://[::1]:3000";
    assert url[0] == 'h';
    assert !IsBlank(url);
    TrimOfWordIsIdentity(url);
  }

  lemma BracketedOrigin()
    ensures Origin("http", "[::1]", ":3000") == "http://[[::1]]:3000"
  {
    assert "[::1]"[1] == ':';
  }

  lemma LocalOrigins()
    ensures Origin("http", "::1", ":3000") == "http://[::1]:3000"
    ensures Origin("http", "localhost", ":3000") == "http://localhost:3000"
    ensures Origin("http", "127.0.0.1", ":3000") == "http://127.0.0.1:3000"
  {
    assert "::1"[0] == ':';
    assert ':' !in "localhost";
    assert ':' !in "127.0.0.1";
  }

  /** As written, the IPv6 loopback base URL is allowed only as an origin
      with doubled brackets, which no browser sends, and its local spellings
      are not added, since "[::1]" is not "::1". */
  lemma LoopbackV6AsWritten(parse: string -> Option<Uri>)
    requires ReadsLoopbackV6(parse)
    ensures AllowedOriginsAsWritten(Some("http://[::1]:3000"), parse) == ["http://[[::1]]:3000"]
  {
    LoopbackV6Parsed(parse);
    Port3000();
    BracketedOrigin();
    assert !IsLocalHost("[::1]");
    var c := Candidates("http", "[::1]", ":3000");
    assert c == ["http://[[::1]]:3000"];
    assert Dedup(c) == c;
  }

  /** With the brackets taken off, the IPv6 loopback base URL allows its own
      origin, which is the default one, and the other two local spellings. */
  lemma LoopbackV6Corrected(parse: string -> Option<Uri>)
    requires ReadsLoopbackV6(parse)
    ensures AllowedOrigins(Some("http://[::1]:3000"), parse) != []
    ensures AllowedOrigins(Some("http://[::1]:3000"), parse)[0] == "http://[::1]:3000"
    ensures forall o :: o in AllowedOrigins(Some("http://[::1]:3000"), parse) <==> o in DefaultOrigins
  {
    LoopbackV6Parsed(parse);
    Port3000();
    LocalOrigins();
    assert Unbracketed("[::1]") == "::1";
    assert IsLocalHost("::1");
    OriginsOfParsedUrl(Some("http://[::1]:3000"), parse);
  }

  /** `resolveAllowedOrigins` as written: the candidate list is built by
      appending and then reduced to its distinct elements. */
  method ResolveAllowedOrigins(frontendBaseUrl: Option<string>, parse: string -> Option<Uri>) returns (origins: seq<string>)
    ensures origins == AllowedOriginsAsWritten(frontendBaseUrl, parse)
  {
    if IsNullOrBlank(frontendBaseUrl) {
      return DefaultOrigins;
    }
    var parsed := parse(Trim(frontendBaseUrl.value));
    if parsed.None? || parsed.value.scheme.None? || parsed.value.host.None? {
      return DefaultOrigins;
    }
    var uri := parsed.value;
    var scheme := uri.scheme.value;
    var portPart := PortPart(uri.port);
    var host := uri.host.value;
    assert ParsedUri(frontendBaseUrl, parse) == Some(uri);
    var list: seq<string> := [];
    list := list + [Origin(scheme, host, portPart)];
    if IsLocalHost(host) {
      list := list + [Origin(scheme, "localhost", portPart)];
      list := list + [Origin(scheme, "127.0.0.1", portPart)];
      list := list + [Origin(scheme, "::1", portPart)];
    }
    assert list == Candidates(scheme, host, portPart);
    origins := Distinct(list);
  }

  /** `distinct`, as a loop that keeps an element when it has not been kept yet. */
  method Distinct(s: seq<string>) returns (r: seq<string>)
    ensures r == Dedup(s)
  {
    r := [];
    var i := 0;
    while i < |s|
      invariant 0 <= i <= |s|
      invariant r == Dedup(s[..i])
    {
      assert s[..i + 1][..i] == s[..i];
      if s[i] !in r {
        r := r + [s[i]];
      }
      i := i + 1;
    }
    assert s[..i] == s;
  }
}
