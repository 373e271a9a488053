/**
 * A registered property of the older resolver generation: a fluent builder
 * whose setters change the property in place and hand back the same
 * property, plus the provider chain it builds lazily from its references.
 */
module EnvProperty {
  import opened Wrappers
  import opened Values
  import opened Provider

  /** A provider a property reads from, with the settings attached to it (nil when none). */
  datatype ProviderRef = ProviderRef(provider: ProviderKind, settings: Value)

  /** The providers of a reference list, in the same order. */
  function Providers(refs: seq<ProviderRef>): (r: seq<ProviderKind>)
    ensures |r| == |refs|
    ensures forall i :: 0 <= i < |refs| ==> r[i] == refs[i].provider
  {
    if refs == [] then [] else [refs[0].provider] + Providers(refs[1..])
  }

  /** Adding a reference at the end adds its provider at the end. */
  lemma {:induction false} ProvidersSnoc(refs: seq<ProviderRef>, ref: ProviderRef)
    ensures Providers(refs + [ref]) == Providers(refs) + [ref.provider]
  {
    var r := Providers(refs + [ref]);
    assert forall i :: 0 <= i < |r| ==> r[i] == (Providers(refs) + [ref.provider])[i];
  }

  /** Settings never change which providers a reference list names. */
  lemma ProvidersIgnoreSettings(refs: seq<ProviderRef>, k: nat, settings: Value)
    requires k < |refs|
    ensures Providers(refs[k := refs[k].(settings := settings)]) == Providers(refs)
  {
    var refs' := refs[k := refs[k].(settings := settings)];
    assert forall i :: 0 <= i < |refs| ==> Providers(refs')[i] == Providers(refs)[i];
  }

  class Property {
    var name: string
    var required: bool
    var aliases: seq<string>
    var defaultValue: Value
    /** The references added by `From`, in order; nil and empty are the same here. */
    var providerRefChain: seq<ProviderRef>
    /** The provider chain, null until it is first asked for while references exist. */
    var chain: array?<ProviderKind>
    var converter: Option<Value -> Value>

    /**
     * A built chain is never empty and lists, in order, the providers of the
     * references that existed when it was built; references added later are
     * not in it.
     */
    ghost predicate Valid()
      reads this, chain
    {
      chain != null ==>
        && 0 < chain.Length <= |providerRefChain|
        && chain[..] == Providers(providerRefChain[..chain.Length])
    }

    /** A property with only its name set. */
    constructor (name: string)
      ensures this.name == name && !required && aliases == [] && defaultValue == Null
      ensures providerRefChain == [] && chain == null && converter.None?
      ensures Valid()
    {
      this.name := name;
      required := false;
      aliases := [];
      defaultValue := Null;
      providerRefChain := [];
      chain := null;
      converter := None;
    }

    /**
     * The provider chain: built on the first call that finds references,
     * one entry per reference in reference order, and returned unchanged by
     * every later call; null while there are no references.
     */
    method ProviderChain() returns (c: array?<ProviderKind>)
      requires Valid()
      modifies this`chain
      ensures Valid()
      ensures c == chain
      ensures old(chain) != null ==> c == old(chain)
      ensures old(chain) == null && providerRefChain == [] ==> c == null
      ensures old(chain) == null && providerRefChain != [] ==> fresh(c) && c[..] == Providers(providerRefChain)
      ensures c == null <==> providerRefChain == []
    {
      if providerRefChain != [] && chain == null {
        var built := new ProviderKind[|providerRefChain|];
        for i := 0 to |providerRefChain|
          invariant forall j :: 0 <= j < i ==> built[j] == providerRefChain[j].provider
        {
          built[i] := providerRefChain[i].provider;
        }
        chain := built;
        assert providerRefChain[..chain.Length] == providerRefChain;
      }
      c := chain;
    }

    method WithDefaultValue(defaultValue: Value) returns (r: Property)
      modifies this`defaultValue
      ensures r == this && this.defaultValue == defaultValue
    {
      this.defaultValue := defaultValue;
      r := this;
    }

    method WithConverter(converter: Option<Value -> Value>) returns (r: Property)
      modifies this`converter
      ensures r == this && this.converter == converter
    {
      this.converter := converter;
      r := this;
    }

    /** Appends the aliases, in argument order, after the existing ones. */
    method WithAliases(alias: seq<string>) returns (r: Property)
      modifies this`aliases
      ensures r == this && aliases == old(aliases) + alias
    {
      aliases := aliases + alias;
      r := this;
    }

    method Required() returns (r: Property)
      modifies this`required
      ensures r == this && required
    {
      required := true;
      r := this;
    }

    /** Appends a reference to `provider` with nil settings; earlier references stay as they were. */
    method From(provider: ProviderKind) returns (r: Property)
      requires Valid()
      modifies this`providerRefChain
      ensures r == this && providerRefChain == old(providerRefChain) + [ProviderRef(provider, Null)]
      ensures Valid()
    {
      ghost var before := providerRefChain;
      providerRefChain := providerRefChain + [ProviderRef(provider, Null)];
      if chain != null {
        assert providerRefChain[..chain.Length] == before[..chain.Length];
      }
      r := this;
    }

    /**
     * Attaches settings to the last reference. Panics when there is no
     * reference or the last one already has settings.
     */
    method WithProviderSettings(settings: Value) returns (r: Property)
      requires Valid()
      requires providerRefChain != []
      requires providerRefChain[|providerRefChain| - 1].settings == Null
      modifies this`providerRefChain
      ensures r == this
      ensures var last := |old(providerRefChain)| - 1;
              providerRefChain == old(providerRefChain)[last := old(providerRefChain)[last].(settings := settings)]
      ensures Valid()
    {
      var providerIndex := |providerRefChain| - 1;
      ghost var before := providerRefChain;
      providerRefChain := providerRefChain[providerIndex := providerRefChain[providerIndex].(settings := settings)];
      if chain != null {
        assert Providers(providerRefChain[..chain.Length]) == Providers(before[..chain.Length]) by {
          if chain.Length == |before| {
            assert providerRefChain[..chain.Length] == providerRefChain;
            assert before[..chain.Length] == before;
            ProvidersIgnoreSettings(before, providerIndex, settings);
          } else {
            assert providerRefChain[..chain.Length] == before[..chain.Length];
          }
        }
      }
      r := this;
    }
  }
}
