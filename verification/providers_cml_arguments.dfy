/**
 * The command-line provider of the older generation: every `Refresh`
 * rebuilds the switch map from the argument vector, switch names keep a
 * leading `V`, and `Get` looks up the requested name only.
 */
module ProvidersCmlArguments {
  import opened Wrappers
  import opened Values
  import Os
  import Tokenizer

  class CmlArgumentsProvider {
    var args: seq<string>
    var switches: map<string, string>

    /** Loads `argv` at once; its refresh cannot fail. */
    constructor (argv: seq<string>)
      requires Tokenizer.WellFormedArgv(argv, false)
      ensures args == argv && switches == Tokenizer.Parse(argv, false)
    {
      args := [];
      switches := map[];
      new;
      var e := Refresh(argv);
      assert e == None;
    }

    /** The stored string for `name`, or nil. */
    method Get(name: string) returns (v: Value)
      ensures v == Tokenizer.SwitchValue(switches, name)
    {
      if name in switches {
        v := Str(switches[name]);
      } else {
        v := Null;
      }
    }

    /** Rebuilds the switch map from `argv[1..]`; nothing of the previous map is kept. */
    method Refresh(argv: seq<string>) returns (err: Option<Os.Error>)
      requires Tokenizer.WellFormedArgv(argv, false)
      modifies this
      ensures args == argv && switches == Tokenizer.Parse(argv, false)
      ensures err == None
    {
      args := argv;
      switches := Tokenizer.Scan(argv, false);
      err := None;
    }
  }
}
