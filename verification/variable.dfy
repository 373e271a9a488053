/**
 * A variable of the newer resolver generation: a fluent builder whose
 * setters change the variable in place and hand back the same variable.
 * Its sources, in the order they were added, decide precedence.
 */
module EnvVariable {
  import opened Wrappers
  import opened Values
  import opened Provider

  /**
   * A cached value. Held as `Option<ValuePlaceholder>`: `None` means "never
   * cached", while `Some(ValuePlaceholder(Null))` means "cached, and the value
   * was nil".
   */
  datatype ValuePlaceholder = ValuePlaceholder(value: Value)

  /** A source of a variable together with the value cached from it. */
  class VariableSource {
    var source: Source
    var cachedValue: Option<ValuePlaceholder>

    constructor (source: Source)
      ensures this.source == source && cachedValue.None?
    {
      this.source := source;
      cachedValue := None;
    }
  }

  class Variable {
    var name: string
    var required: bool
    var defaultValue: Value
    var cachedValue: Option<ValuePlaceholder>
    var sources: seq<VariableSource>
    var chain: seq<ProviderKind>
    var converter: Option<Value -> Value>
    var listener: Option<(Value, Value) -> ()>

    /** `Var(name)`: a variable with its name, no sources, not required, nothing cached. */
    constructor Var(name: string)
      ensures this.name == name && !required && defaultValue == Null && cachedValue.None?
      ensures sources == [] && chain == [] && converter.None? && listener.None?
    {
      this.name := name;
      required := false;
      defaultValue := Null;
      cachedValue := None;
      sources := [];
      chain := [];
      converter := None;
      listener := None;
    }

    method Default(defaultValue: Value) returns (r: Variable)
      modifies this`defaultValue
      ensures r == this && this.defaultValue == defaultValue
    {
      this.defaultValue := defaultValue;
      r := this;
    }

    /** Appends a new source, with nothing cached, after the existing ones. */
    method From(s: Source) returns (r: Variable)
      modifies this`sources
      ensures r == this
      ensures |sources| == |old(sources)| + 1 && sources[..|old(sources)|] == old(sources)
      ensures fresh(sources[|old(sources)|])
      ensures sources[|old(sources)|].source == s && sources[|old(sources)|].cachedValue.None?
    {
      var source := new VariableSource(s);
      sources := sources + [source];
      r := this;
    }

    method Required() returns (r: Variable)
      modifies this`required
      ensures r == this && required
    {
      required := true;
      r := this;
    }

    method ListeningWith(listener: Option<(Value, Value) -> ()>) returns (r: Variable)
      modifies this`listener
      ensures r == this && this.listener == listener
    {
      this.listener := listener;
      r := this;
    }
  }

  /**
   * The builder chain `Var(name).Default(d).From(s1).From(s2).Required()`
   * mutates one variable, and the sources keep the order they were added in.
   */
  method BuildChain(name: string, d: Value, s1: Source, s2: Source) returns (v: Variable)
    ensures fresh(v)
    ensures v.name == name && v.defaultValue == d && v.required
    ensures |v.sources| == 2 && v.sources[0].source == s1 && v.sources[1].source == s2
    ensures v.sources[0].cachedValue.None? && v.sources[1].cachedValue.None?
  {
    v := new Variable.Var(name);
    var r := v.Default(d);
    r := r.From(s1);
    r := r.From(s2);
    r := r.Required();
  }
}
