/**
 * The command-line provider of the newer generation: the switch map is
 * built on the first `Get` and never again, and a source may ask for the
 * value under an alternate name. Switch names lose a leading `V`.
 */
module EnvCmlArguments {
  import opened Wrappers
  import opened Values
  import opened Provider
  import Os
  import Tokenizer

  class CmlArgumentsProvider {
    /** The argument vector last loaded, program name included. */
    var args: seq<string>
    var switches: map<string, string>
    /** Whether the one-time load has happened (the package-level variable `cmlLoaded` in go-env). */
    var loaded: bool

    /** Once loaded, the map is the tokenization of the loaded vector. */
    ghost predicate Valid()
      reads this
    {
      loaded ==> Tokenizer.WellFormedArgv(args, true) && switches == Tokenizer.Parse(args, true)
    }

    /** A provider that has loaded nothing; its `Refresh` cannot fail. */
    constructor ()
      ensures args == [] && switches == map[] && !loaded
      ensures Valid()
    {
      args := [];
      switches := map[];
      loaded := false;
      new;
      var e := Refresh();
      assert e == None;
    }

    /** Tokenizes `argv[1..]` into a fresh switch map. */
    method Load(argv: seq<string>) returns (err: Option<Os.Error>)
      requires Tokenizer.WellFormedArgv(argv, true)
      modifies this
      ensures args == argv && switches == Tokenizer.Parse(argv, true)
      ensures loaded == old(loaded)
      ensures err == None
      ensures Valid()
    {
      args := argv;
      switches := Tokenizer.Scan(argv, true);
      err := None;
    }

    /**
     * Loads the command line on the first call only, then answers the
     * value stored under the effective name, or nil.
     */
    method Get(name: string, config: SourceConfig, argv: seq<string>) returns (v: Value)
      requires Valid()
      requires !loaded ==> Tokenizer.WellFormedArgv(argv, true)
      modifies this
      ensures loaded && Valid()
      ensures old(loaded) ==> args == old(args) && switches == old(switches)
      ensures !old(loaded) ==> args == argv
      ensures v == Tokenizer.SwitchValue(Tokenizer.Parse(args, true), NameFor(CmlArguments, config, name))
    {
      if !loaded {
        var _ := Load(argv);
        loaded := true;
      }
      var variableName := NameFor(CmlArguments, config, name);
      if variableName in switches {
        v := Str(switches[variableName]);
      } else {
        v := Null;
      }
    }

    /** The command line is fixed for the life of the process: nothing to do. */
    method Refresh() returns (err: Option<Os.Error>)
      ensures err == None
    {
      err := None;
    }
  }

  /** A second `Get` does not reload: it answers from the first vector even when given another. */
  method GetTwice(p: CmlArgumentsProvider, name: string, first: seq<string>, second: seq<string>)
    returns (v1: Value, v2: Value)
    requires p.Valid() && !p.loaded
    requires Tokenizer.WellFormedArgv(first, true)
    modifies p
    ensures v1 == v2 == Tokenizer.SwitchValue(Tokenizer.Parse(first, true), name)
  {
    v1 := p.Get(name, NoConfig, first);
    v2 := p.Get(name, NoConfig, second);
  }
}
