/**
 * The few `java.lang.String` operations the gateway relies on, with Java's
 * own edge cases: `isBlank` uses `Character.isWhitespace`, `trim` strips
 * every character up to U+0020, `split` drops trailing empty pieces, and a
 * `null` string is an `Option`. Case mapping is modelled for ASCII letters.
 */
module JavaString {
  import opened Wrappers

  /** `Character.isWhitespace`: ASCII separators and the Unicode space,
      line and paragraph separators other than the non-breaking ones. */
  predicate IsWhitespace(c: char) {
    c == ' ' || c == '\t' || c == '\n' || c == '\U{000B}' || c == '\U{000C}' || c == '\r'
    || ('\U{001C}' <= c <= '\U{001F}')
    || c == '\U{1680}' || ('\U{2000}' <= c <= '\U{2006}') || ('\U{2008}' <= c <= '\U{200A}')
    || c == '\U{2028}' || c == '\U{2029}' || c == '\U{205F}' || c == '\U{3000}'
  }

  /** `String.isBlank`: empty or only whitespace. */
  predicate IsBlank(s: string) {
    s == [] || (IsWhitespace(s[0]) && IsBlank(s[1..]))
  }

  /** Text is blank exactly when both of its parts are. */
  lemma {:induction false} BlankConcat(s: string, t: string)
    ensures IsBlank(s + t) <==> IsBlank(s) && IsBlank(t)
    decreases |s|
  {
    if s != [] {
      assert (s + t)[1..] == s[1..] + t;
      BlankConcat(s[1..], t);
    } else {
      assert s + t == t;
    }
  }

  /** `s == null || s.isBlank()` */
  predicate IsNullOrBlank(s: Option<string>) {
    s.None? || IsBlank(s.value)
  }

  /** The characters `String.trim` removes. */
  predicate Trimmable(c: char) {
    c <= ' '
  }

  /** Number of leading characters `trim` removes. */
  function LeadingTrimmable(s: string): (n: nat)
    ensures n <= |s|
    ensures forall k :: 0 <= k < n ==> Trimmable(s[k])
    ensures n < |s| ==> !Trimmable(s[n])
  {
    if |s| == 0 || !Trimmable(s[0]) then 0 else 1 + LeadingTrimmable(s[1..])
  }

  /** Number of trailing characters `trim` removes. */
  function TrailingTrimmable(s: string): (n: nat)
    ensures n <= |s|
    ensures forall k :: |s| - n <= k < |s| ==> Trimmable(s[k])
    ensures n < |s| ==> !Trimmable(s[|s| - 1 - n])
  {
    if |s| == 0 || !Trimmable(s[|s| - 1]) then 0 else 1 + TrailingTrimmable(s[..|s| - 1])
  }

  /** `String.trim`: the longest infix that neither starts nor ends with a
      character up to U+0020; everything cut off is such a character. */
  function Trim(s: string): (r: string)
    ensures LeadingTrimmable(s) + |r| <= |s|
    ensures r == [] || (!Trimmable(r[0]) && !Trimmable(r[|r| - 1]))
    ensures r == s[LeadingTrimmable(s)..LeadingTrimmable(s) + |r|]
    ensures forall k :: 0 <= k < LeadingTrimmable(s) ==> Trimmable(s[k])
    ensures forall k :: LeadingTrimmable(s) + |r| <= k < |s| ==> Trimmable(s[k])
  {
    var a := LeadingTrimmable(s);
    var rest := s[a..];
    var b := TrailingTrimmable(rest);
    rest[..|rest| - b]
  }

  lemma {:induction false} TrimIdempotent(s: string)
    ensures Trim(Trim(s)) == Trim(s)
  {
    var t := Trim(s);
    if t != [] {
      assert LeadingTrimmable(t) == 0;
      assert TrailingTrimmable(t) == 0;
    }
  }

  /** Trimming text that neither starts nor ends with a trimmable character
      leaves it alone. */
  lemma TrimOfWordIsIdentity(s: string)
    requires s == [] || (!Trimmable(s[0]) && !Trimmable(s[|s| - 1]))
    ensures Trim(s) == s
  {
    if s != [] {
      assert LeadingTrimmable(s) == 0;
      assert TrailingTrimmable(s) == 0;
    }
  }

  /** `Character.toUpperCase` / `toLowerCase` on ASCII letters. */
  function UpperChar(c: char): char {
    if 'a' <= c <= 'z' then (c as int - 32) as char else c
  }

  function LowerChar(c: char): char {
    if 'A' <= c <= 'Z' then (c as int + 32) as char else c
  }

  function ToUpper(s: string): (r: string)
    ensures |r| == |s| && forall i :: 0 <= i < |s| ==> r[i] == UpperChar(s[i])
  {
    if s == [] then [] else [UpperChar(s[0])] + ToUpper(s[1..])
  }

  function ToLower(s: string): (r: string)
    ensures |r| == |s| && forall i :: 0 <= i < |s| ==> r[i] == LowerChar(s[i])
  {
    if s == [] then [] else [LowerChar(s[0])] + ToLower(s[1..])
  }

  /** `String.equalsIgnoreCase` for non-null arguments. */
  predicate EqualsIgnoreCase(a: string, b: string) {
    |a| == |b| && forall i :: 0 <= i < |a| ==> UpperChar(a[i]) == UpperChar(b[i])
  }

  lemma EqualsIgnoreCaseIsUpperEquality(a: string, b: string)
    ensures EqualsIgnoreCase(a, b) <==> ToUpper(a) == ToUpper(b)
  {
    if ToUpper(a) == ToUpper(b) {
      assert forall i :: 0 <= i < |a| ==> ToUpper(a)[i] == ToUpper(b)[i];
    }
  }

  predicate StartsWith(s: string, prefix: string) {
    |prefix| <= |s| && s[..|prefix|] == prefix
  }

  predicate EndsWith(s: string, suffix: string) {
    |suffix| <= |s| && s[|s| - |suffix|..] == suffix
  }

  predicate ContainsChar(s: string, c: char) {
    c in s
  }

  /** A line terminator of `java.util.regex` outside UNIX_LINES mode. */
  predicate IsLineTerminator(c: char) {
    c == '\n' || c == '\r' || c == '\U{85}' || c == '\U{2028}' || c == '\U{2029}'
  }

  /** Where `$` matches in a pattern without MULTILINE: at the end of the
      input, or just before a line terminator that ends it, "\r\n"
      counting as one terminator with no match between its characters. */
  predicate DollarAt(s: string, i: int) {
    || i == |s|
    || (0 <= i == |s| - 1 && IsLineTerminator(s[i]) && !(s[i] == '\n' && i > 0 && s[i - 1] == '\r'))
    || (0 <= i == |s| - 2 && s[i] == '\r' && s[i + 1] == '\n')
  }

  /** `s.replaceAll("/$", "")`: the '/' that `$` can follow is removed, so
      a '/' just before a final line terminator goes too (see
      `StripTrailingSlashIsRegex`). */
  function StripTrailingSlash(s: string): (r: string)
    ensures s != [] && s[|s| - 1] == '/' ==> r + "/" == s
    ensures s == [] || (s[|s| - 1] != '/' && !IsLineTerminator(s[|s| - 1])) ==> r == s
  {
    if s != [] && s[|s| - 1] == '/' then s[..|s| - 1]
    else if |s| >= 2 && s[|s| - 2] == '/' && IsLineTerminator(s[|s| - 1]) then s[..|s| - 2] + s[|s| - 1..]
    else if |s| >= 3 && s[|s| - 3] == '/' && s[|s| - 2] == '\r' && s[|s| - 1] == '\n' then s[..|s| - 3] + s[|s| - 2..]
    else s
  }

  /** The replacement removes exactly a '/' that `$` matches right after,
      and there is at most one; with none the text is unchanged. */
  lemma StripTrailingSlashIsRegex(s: string)
    ensures forall k :: 0 <= k < |s| && s[k] == '/' && DollarAt(s, k + 1) ==> StripTrailingSlash(s) == s[..k] + s[k + 1..]
    ensures (forall k :: 0 <= k < |s| ==> !(s[k] == '/' && DollarAt(s, k + 1))) ==> StripTrailingSlash(s) == s
  {
    var n := |s|;
    forall k | 0 <= k < n && s[k] == '/' && DollarAt(s, k + 1)
      ensures StripTrailingSlash(s) == s[..k] + s[k + 1..]
    {
      if k == n - 1 {
        assert s[k + 1..] == [];
      } else if k == n - 2 {
        assert IsLineTerminator(s[n - 1]);
      } else {
        assert k == n - 3 && s[n - 2] == '\r' && s[n - 1] == '\n';
      }
    }
    if n >= 1 && s[n - 1] == '/' {
      assert DollarAt(s, n);
    } else if n >= 2 && s[n - 2] == '/' && IsLineTerminator(s[n - 1]) {
      assert DollarAt(s, n - 1);
    } else if n >= 3 && s[n - 3] == '/' && s[n - 2] == '\r' && s[n - 1] == '\n' {
      assert DollarAt(s, n - 2);
    }
  }

  /** A '/' before a final line feed is removed, the line feed kept. */
  lemma SlashBeforeLineFeed(p: string)
    ensures StripTrailingSlash(p + "/\n") == p + "\n"
  {
    var s := p + "/\n";
    assert s[|s| - 2] == '/' && s[|s| - 1] == '\n';
    assert s[..|s| - 2] == p;
  }

  /** `String.join(sep, parts)` */
  function Join(sep: string, parts: seq<string>): (r: string)
    decreases |parts|
  {
    if |parts| == 0 then ""
    else if |parts| == 1 then parts[0]
    else parts[0] + sep + Join(sep, parts[1..])
  }

  /** A join of two or more pieces is the first, the separator and the
      join of the rest. */
  lemma JoinStep(sep: string, parts: seq<string>)
    requires |parts| >= 2
    ensures Join(sep, parts) == parts[0] + (sep + Join(sep, parts[1..]))
  {
    assert parts[0] + sep + Join(sep, parts[1..]) == parts[0] + (sep + Join(sep, parts[1..]));
  }

  /** A join holds at least one separator between each two pieces. */
  lemma {:induction false} JoinLength(sep: string, parts: seq<string>)
    requires |parts| >= 1
    ensures |Join(sep, parts)| >= (|parts| - 1) * |sep|
    decreases |parts|
  {
    if |parts| >= 2 {
      JoinLength(sep, parts[1..]);
    }
  }

  /** Splitting on every occurrence of `d`, keeping every piece. */
  function SplitAll(s: string, d: char): (r: seq<string>)
    ensures |r| >= 1
    ensures forall k :: 0 <= k < |r| ==> d !in r[k]
    decreases |s|
  {
    if s == [] then [""]
    else if s[0] == d then [""] + SplitAll(s[1..], d)
    else var t := SplitAll(s[1..], d); [[s[0]] + t[0]] + t[1..]
  }

  function DropTrailingEmpty(parts: seq<string>): (r: seq<string>)
    ensures |r| <= |parts| && r == parts[..|r|]
    ensures r == [] || r[|r| - 1] != ""
    ensures forall k :: |r| <= k < |parts| ==> parts[k] == ""
  {
    if parts == [] || parts[|parts| - 1] != "" then parts
    else DropTrailingEmpty(parts[..|parts| - 1])
  }

  /** `String.split(String.valueOf(d))` with limit 0: trailing empty pieces
      are dropped, and a string without `d` is returned whole. */
  function JavaSplit(s: string, d: char): (r: seq<string>)
    ensures d !in s ==> r == [s]
    ensures forall k :: 0 <= k < |r| ==> d !in r[k]
    ensures d in s ==> r == [] || r[|r| - 1] != ""
  {
    if d !in s then [s] else DropTrailingEmpty(SplitAll(s, d))
  }

  /** Splitting a join of two or more pieces without the separator, the
      last of them not empty, gives the pieces back. */
  lemma JavaSplitJoin(parts: seq<string>, d: char)
    requires |parts| >= 2 && parts[|parts| - 1] != ""
    requires forall k :: 0 <= k < |parts| ==> d !in parts[k]
    ensures JavaSplit(Join([d], parts), d) == parts
  {
    JoinContainsSep(parts, d);
    SplitAllJoin(parts, d);
  }

  /** Joining pieces that do not contain the separator and splitting again
      gives the pieces back. */
  lemma {:induction false} SplitAllJoin(parts: seq<string>, d: char)
    requires |parts| >= 1
    requires forall k :: 0 <= k < |parts| ==> d !in parts[k]
    ensures SplitAll(Join([d], parts), d) == parts
    decreases |parts|
  {
    if |parts| == 1 {
      SplitAllNoSep(parts[0], d);
    } else {
      SplitAllJoin(parts[1..], d);
      SplitAllPrefix(parts[0], Join([d], parts[1..]), d);
    }
  }

  lemma {:induction false} SplitAllNoSep(s: string, d: char)
    requires d !in s
    ensures SplitAll(s, d) == [s]
    decreases |s|
  {
    if s != [] {
      assert s[0] != d;
      SplitAllNoSep(s[1..], d);
      assert [s[0]] + s[1..] == s;
    }
  }

  lemma {:induction false} SplitAllPrefix(w: string, rest: string, d: char)
    requires d !in w
    ensures SplitAll(w + [d] + rest, d) == [w] + SplitAll(rest, d)
    decreases |w|
  {
    if w == [] {
      assert w + [d] + rest == [d] + rest;
      assert ([d] + rest)[1..] == rest;
    } else {
      assert (w + [d] + rest)[1..] == w[1..] + [d] + rest;
      SplitAllPrefix(w[1..], rest, d);
      assert [w[0]] + w[1..] == w;
    }
  }

  /** A join of two or more pieces contains the separator. */
  lemma {:induction false} JoinContainsSep(parts: seq<string>, d: char)
    requires |parts| >= 2
    ensures d in Join([d], parts)
  {
    var j := Join([d], parts);
    assert j == parts[0] + [d] + Join([d], parts[1..]);
    assert j[|parts[0]|] == d;
  }

  /** The decimal digit character of `d`. */
  function DigitChar(d: int): (c: char)
    requires 0 <= d < 10
    ensures '0' <= c <= '9'
  {
    ('0' as int + d) as char
  }

  predicate IsDigits(s: string) {
    forall k :: 0 <= k < |s| ==> '0' <= s[k] <= '9'
  }

  /** The decimal value of a digit string (the reference reading of a numeral). */
  function DigitsValue(s: string): (n: nat)
    requires IsDigits(s)
  {
    if s == [] then 0 else DigitsValue(s[..|s| - 1]) * 10 + (s[|s| - 1] as int - '0' as int)
  }

  /** `Long.toString` of a non-negative value: its decimal digits, without
      leading zeros. */
  function NatToString(n: nat): (r: string)
    ensures |r| >= 1 && IsDigits(r)
    ensures |r| > 1 ==> r[0] != '0'
    decreases n
  {
    if n < 10 then [DigitChar(n)] else NatToString(n / 10) + [DigitChar(n % 10)]
  }

  /** Reading the rendered digits back gives the number. */
  lemma {:induction false} NatToStringValue(n: nat)
    ensures DigitsValue(NatToString(n)) == n
    decreases n
  {
    if n >= 10 {
      NatToStringValue(n / 10);
      var r := NatToString(n);
      assert r[..|r| - 1] == NatToString(n / 10);
    }
  }

  /** `String.valueOf(long)`: a minus sign for negative values. */
  function LongToString(v: int): (r: string)
    ensures ':' !in r && |r| >= 1
    ensures r[0] == '-' <==> v < 0
  {
    if v < 0 then "-" + NatToString(-v) else NatToString(v)
  }
}
