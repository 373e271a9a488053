/**
 * The YAML configuration provider of the older generation. The document
 * starts empty; every refresh resolves the filename from the command line
 * again (clearing it when the switch is absent), and a file that cannot be
 * read empties the document.
 */
module ProvidersYamlConfiguration {
  import opened Wrappers
  import opened Values
  import opened Documents
  import Strings
  import Os
  import ProvidersCmlArguments

  /** Filename from switch `y`, property overrides from switches `Y<name>`. */
  const DefaultOptions := Options(true, "y", true, "Y", "")

  class YamlConfigurationProvider {
    var options: Options
    var yaml: Document

    /** Starts from an empty document and refreshes once. */
    constructor (options: Options, cml: ProvidersCmlArguments.CmlArgumentsProvider, fs: Os.FileSystem, decode: Os.Decoder)
      ensures this.options == options.(filename := FilenameFromCml(options, cml.switches))
      ensures yaml == match ReadDocument(fs, this.options.filename, decode)
                      case Ok(doc) => doc
                      case Err(_) => map[]
    {
      this.options := options;
      yaml := map[];
      new;
      var _ := Refresh(cml, fs, decode);
    }

    /**
     * Resolves the filename, then reads and decodes the file. A read failure
     * resets the document to an empty mapping; a syntax error keeps it.
     */
    method Refresh(cml: ProvidersCmlArguments.CmlArgumentsProvider, fs: Os.FileSystem, decode: Os.Decoder)
      returns (err: Option<Os.Error>)
      modifies this
      ensures options == old(options).(filename := FilenameFromCml(old(options), cml.switches))
      ensures match Os.ReadFile(fs, options.filename)
              case Err(e) => yaml == map[] && err == Some(e)
              case Ok(b) =>
                match decode(b)
                case None => yaml == old(yaml) && err == Some(Os.DecodeError(options.filename))
                case Some(doc) => yaml == doc && err == None
    {
      if options.fileFromCml {
        var v := cml.Get(options.cmlSwitch);
        if v != Null {
          options := options.(filename := v.s);
        } else {
          options := options.(filename := "");
        }
      }
      var b := Os.ReadFile(fs, options.filename);
      if b.Err? {
        yaml := map[];
        return Some(b.error);
      }
      var decoded := decode(b.value);
      if decoded.None? {
        return Some(Os.DecodeError(options.filename));
      }
      yaml := decoded.value;
      return None;
    }

    /** The override switch `Y<name>` when present, otherwise the dotted walk of the document. */
    method Get(name: string, cml: ProvidersCmlArguments.CmlArgumentsProvider) returns (v: Value)
      ensures v == Resolve(options, cml.switches, yaml, name)
    {
      if options.cmlPropertyOverride {
        var o := cml.Get(options.cmlPropertyOverrideSwitch + name);
        if o != Null {
          return o;
        }
      }
      v := GetPath(Map(yaml), Strings.Split(name, '.'));
    }
  }
}
