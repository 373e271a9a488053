/**
 * The resolver of the older generation: a registry of properties by name,
 * `Get` down a provider chain with fallback to the property's default and
 * its converter, and `Refresh` over the default chain.
 *
 * Providers are named by `ProviderKind`; what each one currently answers for
 * a name, and what its refresh reports, are parameters.
 */
module Env {
  import opened Wrappers
  import opened Values
  import opened Provider
  import opened EnvProperty
  import Os
  import Tokenizer

  /** What each provider's `Get` currently answers for a name. */
  type ProviderAnswers = (ProviderKind, string) -> Value

  /** What each provider's `Refresh` currently reports. */
  type ProviderRefresh = ProviderKind -> Option<Os.Error>

  /** The chain used when a name has none of its own: command line, then environment variables. */
  const DefaultProviderChain: seq<ProviderKind> := [CmlArguments, EnvironmentVariables]

  /**
   * The first non-nil answer down the chain, or nil when every provider
   * answers nil.
   */
  function FirstNonNull(chain: seq<ProviderKind>, answers: ProviderAnswers, name: string): (v: Value)
    ensures v == Null <==> forall i :: 0 <= i < |chain| ==> answers(chain[i], name) == Null
    ensures v != Null ==> exists i :: 0 <= i < |chain| && answers(chain[i], name) == v
                                      && forall j :: 0 <= j < i ==> answers(chain[j], name) == Null
  {
    if chain == [] then Null
    else if answers(chain[0], name) != Null then answers(chain[0], name)
    else
      var v := FirstNonNull(chain[1..], answers, name);
      assert v != Null ==> exists i :: 0 < i < |chain| && answers(chain[i], name) == v
                                       && forall j :: 0 <= j < i ==> answers(chain[j], name) == Null by {
        if v != Null {
          var k :| 0 <= k < |chain| - 1 && answers(chain[1..][k], name) == v
                   && forall j :: 0 <= j < k ==> answers(chain[1..][j], name) == Null;
          assert forall j :: 0 < j <= k ==> chain[j] == chain[1..][j - 1];
        }
      }
      v
  }

  /**
   * Once a provider answers, the providers after it are never consulted:
   * changing what they answer changes nothing.
   */
  lemma {:induction false} LaterProvidersIgnored(chain: seq<ProviderKind>, answers: ProviderAnswers, answers': ProviderAnswers,
                                                 name: string, k: nat)
    requires k < |chain| && answers(chain[k], name) != Null
    requires forall j :: 0 <= j <= k ==> answers(chain[j], name) == answers'(chain[j], name)
    ensures FirstNonNull(chain, answers, name) == FirstNonNull(chain, answers', name)
  {
    if answers(chain[0], name) == Null {
      LaterProvidersIgnored(chain[1..], answers, answers', name, k - 1);
    }
  }

  /** The provider that answers first decides, whatever comes after it. */
  lemma {:induction false} FirstAnswerWins(chain: seq<ProviderKind>, rest: seq<ProviderKind>, answers: ProviderAnswers, name: string)
    requires FirstNonNull(chain, answers, name) != Null
    ensures FirstNonNull(chain + rest, answers, name) == FirstNonNull(chain, answers, name)
  {
    if answers(chain[0], name) == Null {
      assert (chain + rest)[1..] == chain[1..] + rest;
      FirstAnswerWins(chain[1..], rest, answers, name);
    }
  }

  /**
   * The answers of the command-line provider over a switch map and of the
   * environment-variable provider over the process environment; no other
   * provider answers.
   */
  function DefaultAnswers(switches: map<string, string>, envVars: Os.EnvVars): ProviderAnswers
  {
    (provider: ProviderKind, name: string) =>
      if provider == CmlArguments then Tokenizer.SwitchValue(switches, name)
      else if provider == EnvironmentVariables && name in envVars then Str(envVars[name])
      else Null
  }

  /**
   * Along the default chain a command-line switch wins over an environment
   * variable of the same name, which wins over nil.
   */
  lemma CommandLineBeforeEnvironment(switches: map<string, string>, envVars: Os.EnvVars, name: string)
    ensures FirstNonNull(DefaultProviderChain, DefaultAnswers(switches, envVars), name)
         == if name in switches then Str(switches[name])
            else if name in envVars then Str(envVars[name])
            else Null
  {
    var answers := DefaultAnswers(switches, envVars);
    var chain := DefaultProviderChain;
    assert answers(CmlArguments, name) == Tokenizer.SwitchValue(switches, name);
    assert answers(EnvironmentVariables, name) == if name in envVars then Str(envVars[name]) else Null;
    assert chain[0] == CmlArguments && chain[1..] == [EnvironmentVariables];
    assert FirstNonNull([EnvironmentVariables], answers, name) == answers(EnvironmentVariables, name) by {
      assert [EnvironmentVariables][1..] == [];
    }
  }

  /** The loop of `Get`: asks each provider in turn and stops at the first non-nil answer. */
  method FirstAnswer(chain: seq<ProviderKind>, answers: ProviderAnswers, name: string) returns (value: Value)
    ensures value == FirstNonNull(chain, answers, name)
  {
    value := Null;
    var i := 0;
    while i < |chain|
      invariant 0 <= i <= |chain|
      invariant value == Null
      invariant FirstNonNull(chain[i..], answers, name) == FirstNonNull(chain, answers, name)
    {
      value := answers(chain[i], name);
      if value != Null {
        break;
      }
      assert chain[i..][1..] == chain[i + 1..];
      i := i + 1;
    }
  }

  /** What a registered property adds after the chain: its default value and its converter. */
  datatype Fallback = Fallback(defaultValue: Value, converter: Option<Value -> Value>)

  /**
   * The answer of `Get` from what the chain found: for a registered property
   * a nil result becomes its default, then a non-nil value goes through its
   * converter; an unregistered name keeps what the chain found.
   */
  function Finish(found: Value, fallback: Option<Fallback>): Value
  {
    match fallback
    case None => found
    case Some(f) =>
      var w := if found == Null then f.defaultValue else found;
      if w != Null && f.converter.Some? then f.converter.value(w) else w
  }

  /** The converter sees the chain's value when there is one, else the default, and never nil. */
  lemma ConverterNeverSeesNil(found: Value, defaultValue: Value, convert: Value -> Value)
    ensures Finish(found, Some(Fallback(defaultValue, Some(convert))))
         == if found != Null then convert(found)
            else if defaultValue != Null then convert(defaultValue)
            else Null
  {
  }

  /** Without a converter, a found value wins over the default, which wins over nil. */
  lemma DefaultOnlyWhenNothingFound(found: Value, defaultValue: Value)
    ensures Finish(found, Some(Fallback(defaultValue, None))) == if found != Null then found else defaultValue
    ensures Finish(found, None) == found
  {
  }

  /**
   * The errors of one refresh pass over `chain`, one per failing provider,
   * in chain order.
   */
  function RefreshErrors(chain: seq<ProviderKind>, refresh: ProviderRefresh): seq<Os.Error>
  {
    if chain == [] then []
    else
      (match refresh(chain[0]) case Some(e) => [e] case None => []) + RefreshErrors(chain[1..], refresh)
  }

  /** The errors of a chain are those of its two parts, one after the other. */
  lemma {:induction false} RefreshErrorsConcat(a: seq<ProviderKind>, b: seq<ProviderKind>, refresh: ProviderRefresh)
    ensures RefreshErrors(a + b, refresh) == RefreshErrors(a, refresh) + RefreshErrors(b, refresh)
  {
    if a == [] {
      assert a + b == b;
    } else {
      var first := match refresh(a[0]) case Some(e) => [e] case None => [];
      assert (a + b)[1..] == a[1..] + b;
      RefreshErrorsConcat(a[1..], b, refresh);
      assert first + (RefreshErrors(a[1..], refresh) + RefreshErrors(b, refresh))
          == (first + RefreshErrors(a[1..], refresh)) + RefreshErrors(b, refresh);
    }
  }

  /** No error is reported exactly when every provider refreshed cleanly. */
  lemma {:induction false} NoErrorsIffAllRefreshed(chain: seq<ProviderKind>, refresh: ProviderRefresh)
    ensures RefreshErrors(chain, refresh) == [] <==> forall i :: 0 <= i < |chain| ==> refresh(chain[i]).None?
  {
    if chain != [] {
      NoErrorsIffAllRefreshed(chain[1..], refresh);
      assert forall i :: 0 < i < |chain| ==> chain[i] == chain[1..][i - 1];
    }
  }

  /**
   * Refreshes every provider of the default chain, going on after a
   * failure, and returns the errors in chain order, or nil when there are
   * none.
   */
  method Refresh(refresh: ProviderRefresh) returns (errors: Option<seq<Os.Error>>)
    ensures errors.None? <==> forall i :: 0 <= i < |DefaultProviderChain| ==> refresh(DefaultProviderChain[i]).None?
    ensures errors.Some? ==> errors.value == RefreshErrors(DefaultProviderChain, refresh) != []
  {
    var chain := DefaultProviderChain;
    var errs: seq<Os.Error> := [];
    for i := 0 to |chain|
      invariant errs == RefreshErrors(chain[..i], refresh)
    {
      RefreshErrorsConcat(chain[..i], [chain[i]], refresh);
      assert chain[..i] + [chain[i]] == chain[..i + 1];
      var e := refresh(chain[i]);
      if e.Some? {
        errs := errs + [e.value];
      }
    }
    assert chain[..|chain|] == chain;
    NoErrorsIffAllRefreshed(chain, refresh);
    if |errs| > 0 {
      return Some(errs);
    }
    return None;
  }

  /** Initializes the environment: a refresh whose errors are dropped. */
  method Build(refresh: ProviderRefresh)
  {
    var _ := Refresh(refresh);
  }

  /** Validation of the registered properties is not implemented: it does nothing. */
  method Validate()
  {
  }

  /** The registry of properties (the package-level `env` registry in go-env). */
  class Environment {
    var properties: map<string, Property>

    constructor ()
      ensures properties == map[]
    {
      properties := map[];
    }

    /** Registers a new property under `name`, replacing any earlier one. */
    method AddProperty(name: string) returns (p: Property)
      modifies this
      ensures fresh(p) && properties == old(properties)[name := p]
      ensures p.name == name && !p.required && p.aliases == [] && p.defaultValue == Null
      ensures p.providerRefChain == [] && p.chain == null && p.converter.None?
      ensures p.Valid()
    {
      p := new Property(name);
      properties := properties[name := p];
    }

    /**
     * The value of `name`: the first non-nil answer down the property's
     * chain (the default chain for an unregistered name or a property
     * without references), then the property's default and converter.
     */
    method Get(name: string, answers: ProviderAnswers) returns (v: Value)
      requires name in properties ==> properties[name].Valid()
      modifies if name in properties then {properties[name]} else {}
      ensures name !in properties ==> v == FirstNonNull(DefaultProviderChain, answers, name)
      ensures name in properties ==>
                var p := properties[name];
                && p.Valid()
                && p.defaultValue == old(p.defaultValue) && p.converter == old(p.converter)
                && p.providerRefChain == old(p.providerRefChain)
                && p.name == old(p.name) && p.required == old(p.required) && p.aliases == old(p.aliases)
      ensures name in properties ==>
                var p := properties[name];
                && (old(p.chain) != null ==> p.chain == old(p.chain))
                && (old(p.chain) == null && p.chain != null ==> p.chain[..] == Providers(p.providerRefChain))
      ensures name in properties ==>
                var p := properties[name];
                && (p.chain == null <==> p.providerRefChain == [])
                && v == Finish(FirstNonNull(if p.chain == null then DefaultProviderChain else p.chain[..], answers, name),
                               Some(Fallback(p.defaultValue, p.converter)))
    {
      var value;
      if name !in properties {
        value := FirstAnswer(DefaultProviderChain, answers, name);
      } else {
        var p := properties[name];
        var c := p.ProviderChain();
        value := FirstAnswer(if c == null then DefaultProviderChain else c[..], answers, name);
        if value == Null {
          value := p.defaultValue;
        }
        if value != Null && p.converter.Some? {
          value := p.converter.value(value);
        }
      }
      v := value;
    }
  }

  /**
   * Registers `name` with a default and four providers, added in order by
   * chained builder calls on the one property `AddProperty` returned.
   */
  method RegisterWithChain(e: Environment, name: string, defaultValue: Value,
                           k1: ProviderKind, k2: ProviderKind, k3: ProviderKind, k4: ProviderKind)
    returns (p: Property)
    modifies e
    ensures fresh(p) && e.properties == old(e.properties)[name := p]
    ensures p.Valid() && p.chain == null && p.defaultValue == defaultValue && p.converter.None?
    ensures p.providerRefChain == [ProviderRef(k1, Null), ProviderRef(k2, Null), ProviderRef(k3, Null), ProviderRef(k4, Null)]
  {
    p := e.AddProperty(name);
    var r := p.WithDefaultValue(defaultValue);
    r := r.From(k1);
    r := r.From(k2);
    r := r.From(k3);
    r := r.From(k4);
  }

  /**
   * A property registered with a default and its own chain of four
   * providers answers the first non-nil value down that chain, in the order
   * `From` added the providers, or else its default.
   */
  method CustomChainScenario(e: Environment, name: string, answers: ProviderAnswers, defaultValue: Value,
                             k1: ProviderKind, k2: ProviderKind, k3: ProviderKind, k4: ProviderKind)
    returns (v: Value)
    modifies e
    ensures v == Finish(FirstNonNull([k1, k2, k3, k4], answers, name), Some(Fallback(defaultValue, None)))
  {
    var p := RegisterWithChain(e, name, defaultValue, k1, k2, k3, k4);
    assert Providers(p.providerRefChain) == [k1, k2, k3, k4];
    v := e.Get(name, answers);
  }
}
