/**
 * `ProviderAdapterRegistry`: the adapters the application was wired with,
 * indexed by the provider each one declares. The index is built on first
 * use and kept; a failed build leaves nothing behind and fails again on
 * the next use.
 */
module Registry {
  import opened Wrappers
  import opened Domain

  /** An adapter as the registry sees it: its class name, as
      `getClass().getName()` gives it, and the provider its `provider()`
      returns (possibly null). */
  datatype Adapter = Adapter(className: string, provider: Option<Provider>)

  /** What `buildRegistry` throws on when it meets `a` with `index` built
      from the adapters before it: nothing for an adapter it can register,
      otherwise the message of the `IllegalStateException`. The null-adapter
      message is never reached from a registry: the constructor's
      `List.copyOf` has already refused a null element (`CopyOf`,
      `NullAdapterMessageUnreachable`). */
  function Rejection(a: Option<Adapter>, index: map<Provider, Adapter>): (r: Option<string>)
    ensures r.None? <==> a.Some? && a.value.provider.Some? && a.value.provider.value !in index
    ensures a.None? ==> r == Some("ProviderAdapter list contiene null")
    ensures a.Some? && a.value.provider.None? ==>
      r == Some("ProviderAdapter " + a.value.className + " devolvió provider=null. Debe retornar un PaymentProvider válido.")
    ensures a.Some? && a.value.provider.Some? && a.value.provider.value in index ==>
      var p := a.value.provider.value;
      r == Some("Adapter duplicado para provider=" + ProviderName(p)
                + ". Existente=" + index[p].className + ", nuevo=" + a.value.className)
  {
    if a.None? then Some("ProviderAdapter list contiene null")
    else if a.value.provider.None? then
      Some("ProviderAdapter " + a.value.className + " devolvió provider=null. Debe retornar un PaymentProvider válido.")
    else if a.value.provider.value in index then
      var p := a.value.provider.value;
      Some("Adapter duplicado para provider=" + ProviderName(p)
           + ". Existente=" + index[p].className + ", nuevo=" + a.value.className)
    else None
  }

  /** The message `getRequired` throws with for a provider nobody declares. */
  function NotRegisteredMessage(p: Provider): (r: string)
    ensures |r| > |"No existe ProviderAdapter registrado para provider="|
    ensures r[..|"No existe ProviderAdapter registrado para provider="|] == "No existe ProviderAdapter registrado para provider="
    ensures r[|"No existe ProviderAdapter registrado para provider="|..] == ProviderName(p)
  {
    "No existe ProviderAdapter registrado para provider=" + ProviderName(p)
  }

  /** No null element. */
  predicate NoNull(adapters: seq<Option<Adapter>>) {
    forall i :: 0 <= i < |adapters| ==> adapters[i].Some?
  }

  /** The constructor's copy: a null list is an empty one, and `List.copyOf`
      throws NullPointerException on a null element. */
  function CopyOf(adapters: Option<seq<Option<Adapter>>>): (r: Result<seq<Option<Adapter>>, Failure>)
    ensures r.Ok? <==> adapters.None? || NoNull(adapters.value)
    ensures r.Ok? ==> r.value == (if adapters.None? then [] else adapters.value) && NoNull(r.value)
    ensures r.Err? ==> r.error == Unchecked("NullPointerException")
  {
    if adapters.None? then Ok([])
    else if NoNull(adapters.value) then Ok(adapters.value)
    else Err(Unchecked("NullPointerException"))
  }

  /** Among copied adapters no rejection is the null-adapter one. */
  lemma NullAdapterMessageUnreachable(adapters: seq<Option<Adapter>>, i: int, index: map<Provider, Adapter>)
    requires NoNull(adapters) && 0 <= i < |adapters|
    ensures Rejection(adapters[i], index) != Some("ProviderAdapter list contiene null")
  {
    var r := Rejection(adapters[i], index);
    if r.Some? {
      assert |r.value| > |"ProviderAdapter list contiene null"|;
    }
  }

  /** No null adapter, no null provider, no provider twice. */
  predicate WellFormed(adapters: seq<Option<Adapter>>) {
    (forall i :: 0 <= i < |adapters| ==> adapters[i].Some? && adapters[i].value.provider.Some?)
    && (forall i, j :: 0 <= i < j < |adapters| ==> adapters[i].value.provider != adapters[j].value.provider)
  }

  /** The providers the non-null adapters declare. */
  function ProvidersOf(adapters: seq<Option<Adapter>>): set<Provider> {
    set i | 0 <= i < |adapters| && adapters[i].Some? && adapters[i].value.provider.Some? :: adapters[i].value.provider.value
  }

  /** The index maps each adapter's provider to that adapter, and nothing else. */
  predicate Indexes(adapters: seq<Option<Adapter>>, index: map<Provider, Adapter>)
    requires WellFormed(adapters)
  {
    index.Keys == ProvidersOf(adapters)
    && forall i :: 0 <= i < |adapters| ==> index[adapters[i].value.provider.value] == adapters[i].value
  }

  /** Indexing one more adapter whose provider is new keeps the list well
      formed and the index exact. */
  lemma RegisterStep(s: seq<Option<Adapter>>, a: Option<Adapter>, index: map<Provider, Adapter>)
    requires WellFormed(s) && Indexes(s, index)
    requires a.Some? && a.value.provider.Some? && a.value.provider.value !in ProvidersOf(s)
    ensures WellFormed(s + [a]) && Indexes(s + [a], index[a.value.provider.value := a.value])
  {
    var t, p := s + [a], a.value.provider.value;
    forall i | 0 <= i < |s| ensures t[i] == s[i] && s[i].value.provider.value in ProvidersOf(s) {
      assert s[i].value.provider.value == s[i].value.provider.value;
    }
    assert t[|s|] == a;
    assert ProvidersOf(t) == ProvidersOf(s) + {p};
  }

  /** In a well-formed list, the adapter after an indexed prefix is there,
      declares a provider, and that provider is not indexed yet. */
  lemma NextMustRegister(adapters: seq<Option<Adapter>>, i: nat, index: map<Provider, Adapter>)
    requires i < |adapters| && WellFormed(adapters[..i]) && Indexes(adapters[..i], index)
    ensures WellFormed(adapters) ==>
      adapters[i].Some? && adapters[i].value.provider.Some? && adapters[i].value.provider.value !in index
  {
    if adapters[i].Some? && adapters[i].value.provider.Some? && adapters[i].value.provider.value in index {
      var s := adapters[..i];
      var j :| 0 <= j < i && s[j].Some? && s[j].value.provider.Some?
               && s[j].value.provider.value == adapters[i].value.provider.value;
      assert s[j] == adapters[j];
    }
  }

  class ProviderAdapterRegistry {
    const adapters: seq<Option<Adapter>>
    var index: Option<map<Provider, Adapter>>

    ghost predicate Valid()
      reads this
    {
      NoNull(adapters)
      && (index.Some? ==> WellFormed(adapters) && Indexes(adapters, index.value))
    }

    /** The constructor once `List.copyOf` has gone through: a null list is
        an empty one. */
    constructor (adapters: Option<seq<Option<Adapter>>>)
      requires CopyOf(adapters).Ok?
      ensures Valid()
      ensures this.adapters == CopyOf(adapters).value
      ensures index.None?
    {
      this.adapters := CopyOf(adapters).value;
      index := None;
    }

    /** `new ProviderAdapterRegistry(adapters)` with its failure: a list
        holding a null adapter throws NullPointerException and no registry
        exists. */
    static method Create(adapters: Option<seq<Option<Adapter>>>) returns (r: Result<ProviderAdapterRegistry, Failure>)
      ensures r.Err? <==> adapters.Some? && !NoNull(adapters.value)
      ensures r.Err? ==> r.error == Unchecked("NullPointerException")
      ensures r.Ok? ==> fresh(r.value) && r.value.Valid() && r.value.index.None?
                        && r.value.adapters == (if adapters.None? then [] else adapters.value)
    {
      var copied := CopyOf(adapters);
      if copied.Err? {
        return Err(copied.error);
      }
      var registry := new ProviderAdapterRegistry(adapters);
      return Ok(registry);
    }

    /** `buildRegistry`: `putIfAbsent` each adapter in order, failing on a
        null adapter, a null provider or a provider already taken. */
    method BuildRegistry() returns (r: Result<map<Provider, Adapter>, Failure>)
      ensures r.Ok? <==> WellFormed(adapters)
      ensures r.Ok? ==> Indexes(adapters, r.value)
      ensures r.Err? ==> r.error.IllegalState?
      ensures r.Err? ==> exists i, index :: 0 <= i < |adapters| && WellFormed(adapters[..i])
                           && Indexes(adapters[..i], index) && Rejection(adapters[i], index) == Some(r.error.message)
      ensures r.Err? && NoNull(adapters) ==> r.error.message != "ProviderAdapter list contiene null"
    {
      var registry: map<Provider, Adapter> := map[];
      var i := 0;
      while i < |adapters|
        invariant 0 <= i <= |adapters|
        invariant WellFormed(adapters[..i])
        invariant Indexes(adapters[..i], registry)
      {
        var adapter := adapters[i];
        NextMustRegister(adapters, i, registry);
        var rejected := Rejection(adapter, registry);
        if rejected.Some? {
          if NoNull(adapters) {
            NullAdapterMessageUnreachable(adapters, i, registry);
          }
          return Err(IllegalState(rejected.value));
        }
        var provider := adapter.value.provider;
        RegisterStep(adapters[..i], adapter, registry);
        registry := registry[provider.value := adapter.value];
        assert adapters[..i + 1] == adapters[..i] + [adapter];
        i := i + 1;
      }
      assert adapters[..i] == adapters;
      return Ok(registry);
    }

    /** `ensureInitialized`: build the index once and keep it. */
    method EnsureInitialized() returns (r: Result<map<Provider, Adapter>, Failure>)
      requires Valid()
      modifies this`index
      ensures Valid()
      ensures r.Ok? <==> WellFormed(adapters)
      ensures r.Ok? ==> Indexes(adapters, r.value) && index == Some(r.value)
      ensures r.Err? ==> r.error.IllegalState? && index == old(index)
      ensures old(index).Some? ==> unchanged(this)
    {
      if index.Some? {
        return Ok(index.value);
      }
      r := BuildRegistry();
      if r.Ok? {
        index := Some(r.value);
      }
    }

    /** `getRequired` (and `get`): an unregistered provider is an illegal
        argument. */
    method GetRequired(p: Provider) returns (r: Result<Adapter, Failure>)
      requires Valid()
      modifies this`index
      ensures Valid()
      ensures r.Ok? <==> WellFormed(adapters) && p in ProvidersOf(adapters)
      ensures r.Ok? ==> r.value.provider == Some(p) && Some(r.value) in adapters
      ensures !WellFormed(adapters) ==> r.Err? && r.error.IllegalState?
      ensures WellFormed(adapters) && p !in ProvidersOf(adapters) ==> r == Err(IllegalArgument(NotRegisteredMessage(p)))
    {
      var built := EnsureInitialized();
      if built.Err? {
        return Err(built.error);
      }
      if p !in built.value {
        return Err(IllegalArgument(NotRegisteredMessage(p)));
      }
      var i :| 0 <= i < |adapters| && adapters[i].Some? && adapters[i].value.provider == Some(p);
      return Ok(built.value[p]);
    }

    /** `find`: like `getRequired`, with an empty result instead of the
        exception. */
    method Find(p: Provider) returns (r: Result<Option<Adapter>, Failure>)
      requires Valid()
      modifies this`index
      ensures Valid()
      ensures r.Ok? <==> WellFormed(adapters)
      ensures r.Ok? ==> (r.value.Some? <==> p in ProvidersOf(adapters))
      ensures r.Ok? && r.value.Some? ==> r.value.value.provider == Some(p) && Some(r.value.value) in adapters
    {
      var built := EnsureInitialized();
      if built.Err? {
        return Err(built.error);
      }
      if p !in built.value {
        return Ok(None);
      }
      var i :| 0 <= i < |adapters| && adapters[i].Some? && adapters[i].value.provider == Some(p);
      return Ok(Some(built.value[p]));
    }

    /** `registeredProviders`: the providers the adapters declare. */
    method RegisteredProviders() returns (r: Result<set<Provider>, Failure>)
      requires Valid()
      modifies this`index
      ensures Valid()
      ensures r.Ok? <==> WellFormed(adapters)
      ensures r.Ok? ==> r.value == ProvidersOf(adapters)
    {
      var built := EnsureInitialized();
      if built.Err? {
        return Err(built.error);
      }
      return Ok(built.value.Keys);
    }
  }

  /** A null adapter list registers nothing. */
  lemma EmptyListRegistersNothing()
    ensures WellFormed([]) && ProvidersOf([]) == {}
  {
  }

  /** In a well-formed list, each provider belongs to exactly one adapter. */
  lemma AdapterOfIsUnique(adapters: seq<Option<Adapter>>, i: int, j: int)
    requires WellFormed(adapters)
    requires 0 <= i < |adapters| && 0 <= j < |adapters|
    requires adapters[i].value.provider == adapters[j].value.provider
    ensures i == j
  {
  }

  /** The registry of the gateway's four adapters. */
  lemma GatewayAdapters()
    ensures var adapters := [Some(Adapter("com.pasarela.infrastructure.provider.StripeAdapter", Some(STRIPE))), Some(Adapter("com.pasarela.infrastructure.provider.AdyenAdapter", Some(ADYEN))),
                             Some(Adapter("com.pasarela.infrastructure.provider.MastercardHostedCheckoutAdapter", Some(MASTERCARD))), Some(Adapter("com.pasarela.infrastructure.provider.DemoAdapter", Some(DEMO)))];
      WellFormed(adapters) && ProvidersOf(adapters) == {STRIPE, ADYEN, MASTERCARD, DEMO}
  {
    var adapters := [Some(Adapter("com.pasarela.infrastructure.provider.StripeAdapter", Some(STRIPE))), Some(Adapter("com.pasarela.infrastructure.provider.AdyenAdapter", Some(ADYEN))),
                     Some(Adapter("com.pasarela.infrastructure.provider.MastercardHostedCheckoutAdapter", Some(MASTERCARD))), Some(Adapter("com.pasarela.infrastructure.provider.DemoAdapter", Some(DEMO)))];
    assert adapters[0].value.provider.value == STRIPE;
    assert adapters[1].value.provider.value == ADYEN;
    assert adapters[2].value.provider.value == MASTERCARD;
    assert adapters[3].value.provider.value == DEMO;
  }
}
