/**
 * The JSON configuration provider of the newer generation. The filename is
 * resolved from the command line once, at load time; a refresh rereads the
 * file only when its modification time is after the provider's timestamp,
 * and keeps the previous document when anything fails.
 */
module EnvJsonConfiguration {
  import opened Wrappers
  import opened Values
  import opened Provider
  import opened Documents
  import Strings
  import Os
  import Tokenizer
  import TokenizerExamples
  import EnvCmlArguments

  /** Filename from switch `j`, property overrides from switches `J<name>`. */
  const DefaultOptions := Options(true, "j", true, "J", "")

  /** The zero time a new provider starts from; every file time is compared with it. */
  const ZeroTime := 0

  class JsonConfigurationProvider {
    var options: Options
    /** The time a file must be newer than to be read; nothing ever advances it. */
    var timestamp: int
    /** The decoded document, or nil while none has been read. */
    var json: Option<Document>

    /** A provider with the given options, loaded at once. */
    constructor (options: Options, cml: EnvCmlArguments.CmlArgumentsProvider, argv: seq<string>,
                 fs: Os.FileSystem, decode: Os.Decoder)
      requires cml.Valid() && (!cml.loaded ==> Tokenizer.WellFormedArgv(argv, true))
      modifies cml
      ensures cml.Valid()
      ensures options.fileFromCml ==> cml.loaded
      ensures !options.fileFromCml ==> cml.loaded == old(cml.loaded) && cml.args == old(cml.args) && cml.switches == old(cml.switches)
      ensures cml.loaded ==> cml.args == if old(cml.loaded) then old(cml.args) else argv
      ensures this.options == options.(filename := FilenameFromCml(options, cml.switches))
      ensures options.fileFromCml && !old(cml.loaded) ==> this.options.filename == FilenameFromCml(options, Tokenizer.Parse(argv, true))
      ensures timestamp == ZeroTime
      ensures json == TimedRefresh(fs, this.options.filename, ZeroTime, decode, None, true).document
    {
      this.options := options;
      timestamp := ZeroTime;
      json := None;
      new;
      var _ := Load(cml, argv, fs, decode);
    }

    /**
     * Resolves the filename from the command line (clearing it when the
     * switch is absent) and refreshes.
     */
    method Load(cml: EnvCmlArguments.CmlArgumentsProvider, argv: seq<string>, fs: Os.FileSystem, decode: Os.Decoder)
      returns (err: Option<Os.Error>)
      requires cml.Valid() && (!cml.loaded ==> Tokenizer.WellFormedArgv(argv, true))
      modifies this, cml
      ensures cml.Valid()
      ensures old(options).fileFromCml ==> cml.loaded && (old(cml.loaded) ==> cml.args == old(cml.args))
      ensures !old(options).fileFromCml ==> cml.loaded == old(cml.loaded) && cml.args == old(cml.args) && cml.switches == old(cml.switches)
      ensures cml.loaded ==> cml.args == if old(cml.loaded) then old(cml.args) else argv
      ensures options == old(options).(filename := FilenameFromCml(old(options), cml.switches))
      ensures old(options).fileFromCml && !old(cml.loaded) ==> options.filename == FilenameFromCml(old(options), Tokenizer.Parse(argv, true))
      ensures timestamp == old(timestamp)
      ensures var r := TimedRefresh(fs, options.filename, timestamp, decode, old(json), true);
              json == r.document && err == r.err
    {
      if options.fileFromCml {
        var v := cml.Get(options.cmlSwitch, NoConfig, argv);
        if v != Null {
          options := options.(filename := v.s);
        } else {
          options := options.(filename := "");
        }
      }
      var _, e := Refresh(fs, decode);
      err := e;
    }

    /** Rereads the file when it is newer than the timestamp; reports whether a document was installed. */
    method Refresh(fs: Os.FileSystem, decode: Os.Decoder) returns (changed: bool, err: Option<Os.Error>)
      modifies this
      ensures options == old(options) && timestamp == old(timestamp)
      ensures Refreshed(json, changed, err) == TimedRefresh(fs, options.filename, timestamp, decode, old(json), true)
    {
      if options.filename != "" {
        var stat := Os.Stat(fs, options.filename);
        if stat.Err? {
          return false, Some(stat.error);
        }
        if stat.value <= timestamp {
          return false, None;
        }
        var b := Os.ReadFile(fs, options.filename);
        if b.Err? {
          return false, Some(b.error);
        }
        var jsonObject := decode(b.value);
        if jsonObject.None? {
          return false, Some(Os.DecodeError(options.filename));
        }
        json := jsonObject;
        return true, None;
      }
      return false, None;
    }

    /**
     * Nil while no document is loaded; otherwise the override switch for the
     * effective name, or the node its dotted walk reaches.
     */
    method Get(name: string, config: SourceConfig, cml: EnvCmlArguments.CmlArgumentsProvider, argv: seq<string>)
      returns (v: Value)
      requires cml.Valid() && (!cml.loaded ==> Tokenizer.WellFormedArgv(argv, true))
      modifies cml
      ensures cml.Valid()
      ensures old(cml.loaded) ==> cml.args == old(cml.args)
      ensures !cml.loaded ==> cml.args == old(cml.args)
      ensures json.None? || !options.cmlPropertyOverride ==> cml.loaded == old(cml.loaded) && cml.switches == old(cml.switches)
      ensures json.None? ==> v == Null
      ensures json.Some? ==> v == Resolve(options, cml.switches, json.value, NameFor(JsonConfiguration, config, name))
      ensures json.Some? && options.cmlPropertyOverride ==> cml.loaded
      ensures cml.loaded ==> cml.args == if old(cml.loaded) then old(cml.args) else argv
      ensures json.Some? && options.cmlPropertyOverride && !old(cml.loaded)
              ==> v == Resolve(options, Tokenizer.Parse(argv, true), json.value, NameFor(JsonConfiguration, config, name))
    {
      if json.None? {
        return Null;
      }
      var variableName := NameFor(JsonConfiguration, config, name);
      if options.cmlPropertyOverride {
        var o := cml.Get(options.cmlPropertyOverrideSwitch + variableName, NoConfig, argv);
        if o != Null {
          return o;
        }
      }
      v := GetPath(Map(json.value), Strings.Split(variableName, '.'));
    }
  }

  /**
   * The ad-hoc JSON test: `-J<name> <value>` overrides that property while
   * every other property comes from the file named by `-j`.
   */
  lemma OverrideScenario(argv: seq<string>, property: string, value: string, file: string, doc: Document)
    requires TokenizerExamples.PlainName("J" + property, true) && TokenizerExamples.PlainValue(value)
    requires TokenizerExamples.PlainValue(file)
    requires argv == ["app", "-J" + property, value, "-j", file]
    ensures Tokenizer.WellFormedArgv(argv, true)
    ensures FilenameFromCml(DefaultOptions, Tokenizer.Parse(argv, true)) == file
    ensures Resolve(DefaultOptions, Tokenizer.Parse(argv, true), doc, property) == Str(value)
    ensures forall other :: other != property ==> Resolve(DefaultOptions, Tokenizer.Parse(argv, true), doc, other) == GetDotted(doc, other)
  {
    assert "-J" + property == "-" + ("J" + property) && "-j" == "-" + "j";
    TokenizerExamples.TwoSwitches(argv, "J" + property, value, "j", file, true);
    forall other | other != property
      ensures Resolve(DefaultOptions, Tokenizer.Parse(argv, true), doc, other) == GetDotted(doc, other)
    {
      assert "J" + other != "J" + property by {
        assert ("J" + other)[1..] == other && ("J" + property)[1..] == property;
      }
    }
  }

  /**
   * The same test through the objects themselves: a command-line provider
   * that has not loaded yet, a JSON provider built with the default options
   * over a file newer than the zero time, then two lookups.
   */
  method OverrideThroughProvider(argv: seq<string>, property: string, value: string, file: string, doc: Document,
                                 other: string, fs: Os.FileSystem, decode: Os.Decoder)
    returns (filename: string, answer: Value, otherAnswer: Value)
    requires TokenizerExamples.PlainName("J" + property, true) && TokenizerExamples.PlainValue(value)
    requires TokenizerExamples.PlainValue(file)
    requires argv == ["app", "-J" + property, value, "-j", file]
    requires file in fs && fs[file].modTime > ZeroTime && fs[file].readable && decode(fs[file].contents) == Some(doc)
    ensures filename == file
    ensures answer == Str(value)
    ensures other != property ==> otherAnswer == GetDotted(doc, other)
  {
    OverrideScenario(argv, property, value, file, doc);
    var cml := new EnvCmlArguments.CmlArgumentsProvider();
    var p := new JsonConfigurationProvider(DefaultOptions, cml, argv, fs, decode);
    filename := p.options.filename;
    answer := p.Get(property, NoConfig, cml, argv);
    otherAnswer := p.Get(other, NoConfig, cml, argv);
  }
}
