/**
 * The JSON configuration provider of the older generation. The document
 * starts empty; the filename comes from the command line only when the
 * switch is present, and is fixed at construction. Every refresh reads the
 * file; a failure leaves the document as it was.
 */
module ProvidersJsonConfiguration {
  import opened Wrappers
  import opened Values
  import opened Documents
  import Strings
  import Os
  import ProvidersCmlArguments

  /** Filename from switch `j`, property overrides from switches `J<name>`. */
  const DefaultOptions := Options(true, "j", true, "J", "")

  class JsonConfigurationProvider {
    var options: Options
    var json: Document

    /** Picks the filename, then reads the file once; on failure the document stays empty. */
    constructor (options: Options, cml: ProvidersCmlArguments.CmlArgumentsProvider, fs: Os.FileSystem, decode: Os.Decoder)
      ensures this.options == options.(filename := FilenameIfSwitched(options, cml.switches))
      ensures json == match ReadDocument(fs, this.options.filename, decode)
                      case Ok(doc) => doc
                      case Err(_) => map[]
    {
      this.options := options;
      json := map[];
      new;
      if options.fileFromCml {
        var v := cml.Get(options.cmlSwitch);
        if v != Null {
          this.options := this.options.(filename := v.s);
        }
      }
      var _ := Refresh(fs, decode);
    }

    /** Reads and decodes the file; a read error is returned before anything is decoded. */
    method Refresh(fs: Os.FileSystem, decode: Os.Decoder) returns (err: Option<Os.Error>)
      modifies this
      ensures options == old(options)
      ensures match ReadDocument(fs, options.filename, decode)
              case Ok(doc) => json == doc && err == None
              case Err(e) => json == old(json) && err == Some(e)
    {
      var b := Os.ReadFile(fs, options.filename);
      if b.Err? {
        return Some(b.error);
      }
      var decoded := decode(b.value);
      if decoded.None? {
        return Some(Os.DecodeError(options.filename));
      }
      json := decoded.value;
      return None;
    }

    /** The override switch `J<name>` when present, otherwise the dotted walk of the document. */
    method Get(name: string, cml: ProvidersCmlArguments.CmlArgumentsProvider) returns (v: Value)
      ensures v == Resolve(options, cml.switches, json, name)
    {
      if options.cmlPropertyOverride {
        var o := cml.Get(options.cmlPropertyOverrideSwitch + name);
        if o != Null {
          return o;
        }
      }
      v := GetPath(Map(json), Strings.Split(name, '.'));
    }
  }
}
