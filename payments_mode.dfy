/**
 * `PaymentsMode`: whether the gateway runs in demo mode, and the mode it
 * reports. The Spring environment is the function `env` from property name
 * to value; the typed lookup of `pasarela.demo.provider` as a `Boolean` is
 * given already converted.
 */
module PaymentsMode {
  import opened Wrappers
  import opened JavaString

  const MODE_DEMO: string := "demo"

  datatype Mode = Mode(configuredMode: string, demoFlag: bool)

  /** `firstNonBlank`: the trimmed primary if it is not blank, else the
      trimmed fallback if that is not blank, else "". */
  function FirstNonBlank(primary: Option<string>, fallback: Option<string>): (r: string)
    ensures !IsNullOrBlank(primary) ==> r == Trim(primary.value)
    ensures IsNullOrBlank(primary) && !IsNullOrBlank(fallback) ==> r == Trim(fallback.value)
    ensures IsNullOrBlank(primary) && IsNullOrBlank(fallback) ==> r == ""
  {
    if !IsNullOrBlank(primary) then Trim(primary.value)
    else if !IsNullOrBlank(fallback) then Trim(fallback.value)
    else ""
  }

  /** What `firstNonBlank` returns is already trimmed. */
  lemma FirstNonBlankTrimmed(primary: Option<string>, fallback: Option<string>)
    ensures Trim(FirstNonBlank(primary, fallback)) == FirstNonBlank(primary, fallback)
  {
    if !IsNullOrBlank(primary) {
      TrimIdempotent(primary.value);
    } else if !IsNullOrBlank(fallback) {
      TrimIdempotent(fallback.value);
    }
  }

  const TrueWords: set<string> := {"true", "1", "yes", "y"}

  /** `parseBoolean`: null is false; otherwise the trimmed, lower-cased
      text is one of the four true words. */
  function ParseBoolean(value: Option<string>): (r: bool)
    ensures value.None? ==> !r
    ensures value.Some? ==> (r <==> ToLower(Trim(value.value)) in TrueWords)
  {
    value.Some? && ToLower(Trim(value.value)) in TrueWords
  }

  /** Case and surrounding blanks do not matter. */
  lemma ParseBooleanIgnoresCaseAndBlanks()
    ensures ParseBoolean(Some(" YES "))
  {
    var rest := " YES "[1..];
    assert rest == "YES ";
    assert LeadingTrimmable(rest) == 0;
    assert LeadingTrimmable(" YES ") == 1;
    assert rest[..3] == "YES";
    assert TrailingTrimmable("YES") == 0;
    assert TrailingTrimmable(rest) == 1;
    assert Trim(" YES ") == "YES";
    var lower := ToLower("YES");
    assert lower[0] == 'y' && lower[1] == 'e' && lower[2] == 's';
    assert lower == "yes";
  }

  /** Spring's other true spelling "on" is not one of the words. */
  lemma ParseBooleanRefusesOn()
    ensures !ParseBoolean(Some("on"))
  {
    TrimOfWordIsIdentity("on");
    assert ToLower("on") == "on";
  }

  /** The constructor: PAYMENTS_MODE before app.payments.mode; the demo flag
      from the Boolean property or from PASARELA_DEMO_PROVIDER. */
  function NewMode(env: string -> Option<string>, demoProperty: Option<bool>): (m: Mode)
    ensures !IsNullOrBlank(env("PAYMENTS_MODE")) ==> m.configuredMode == Trim(env("PAYMENTS_MODE").value)
    ensures m.demoFlag <==> demoProperty == Some(true) || ParseBoolean(env("PASARELA_DEMO_PROVIDER"))
    ensures Trim(m.configuredMode) == m.configuredMode
  {
    FirstNonBlankTrimmed(env("PAYMENTS_MODE"), env("app.payments.mode"));
    Mode(FirstNonBlank(env("PAYMENTS_MODE"), env("app.payments.mode")),
         demoProperty == Some(true) || ParseBoolean(env("PASARELA_DEMO_PROVIDER")))
  }

  /** `isDemo` */
  predicate IsDemo(m: Mode) {
    m.demoFlag || EqualsIgnoreCase(MODE_DEMO, m.configuredMode)
  }

  /** `effectiveMode`: "demo" in demo mode, "auto" for no configured mode,
      and otherwise the configured mode trimmed and lower-cased. */
  function EffectiveMode(m: Mode): (r: string)
    ensures IsDemo(m) ==> r == MODE_DEMO
    ensures !IsDemo(m) && IsBlank(m.configuredMode) ==> r == "auto"
    ensures !IsDemo(m) && !IsBlank(m.configuredMode) ==> r == ToLower(Trim(m.configuredMode))
  {
    if IsDemo(m) then MODE_DEMO
    else if IsBlank(m.configuredMode) then "auto"
    else ToLower(Trim(m.configuredMode))
  }

  predicate LowerWord(w: string) {
    forall i :: 0 <= i < |w| ==> 'a' <= w[i] <= 'z'
  }

  /** Against a lower-case word, `equalsIgnoreCase` is equality after lower-casing. */
  lemma IgnoreCaseIsLowerEquality(w: string, t: string)
    requires LowerWord(w)
    ensures EqualsIgnoreCase(w, t) <==> ToLower(t) == w
  {
    if |t| == |w| {
      var l := ToLower(t);
      forall i | 0 <= i < |w| ensures UpperChar(w[i]) == UpperChar(t[i]) <==> l[i] == w[i] {
        LowerLetterIgnoringCase(w[i], t[i]);
      }
      if EqualsIgnoreCase(w, t) {
        assert l == w;
      }
    }
  }

  /** For a lower-case letter `c`, `d` equals it ignoring case exactly when
      `d` lower-cased is `c`. */
  lemma LowerLetterIgnoringCase(c: char, d: char)
    requires 'a' <= c <= 'z'
    ensures UpperChar(c) == UpperChar(d) <==> LowerChar(d) == c
  {
  }

  /** A mode the constructor built reports "demo" exactly when it is in demo
      mode: a configured "demo" in any case is demo mode. */
  lemma EffectiveDemoIffDemo(env: string -> Option<string>, demoProperty: Option<bool>)
    ensures EffectiveMode(NewMode(env, demoProperty)) == MODE_DEMO <==> IsDemo(NewMode(env, demoProperty))
  {
    TrimmedModeDemoIff(NewMode(env, demoProperty));
  }

  /** The same for any mode whose configured text is already trimmed. */
  lemma TrimmedModeDemoIff(m: Mode)
    requires Trim(m.configuredMode) == m.configuredMode
    ensures EffectiveMode(m) == MODE_DEMO <==> IsDemo(m)
  {
    if !IsDemo(m) && !IsBlank(m.configuredMode) {
      IgnoreCaseIsLowerEquality(MODE_DEMO, m.configuredMode);
      assert EffectiveMode(m) == ToLower(m.configuredMode) != MODE_DEMO;
    }
  }

  /** With no flag set, a non-blank PAYMENTS_MODE decides the mode whatever
      app.payments.mode says. */
  lemma PaymentsModeTakesPrecedence(env: string -> Option<string>, env2: string -> Option<string>, demoProperty: Option<bool>)
    requires !IsNullOrBlank(env("PAYMENTS_MODE")) && env2("PAYMENTS_MODE") == env("PAYMENTS_MODE")
    requires env2("PASARELA_DEMO_PROVIDER") == env("PASARELA_DEMO_PROVIDER")
    ensures EffectiveMode(NewMode(env, demoProperty)) == EffectiveMode(NewMode(env2, demoProperty))
  {
  }
}
