/**
 * What the JSON and YAML providers of both generations share: their options,
 * how a filename is picked from the command line, how a property is answered
 * (command-line override first, then the dotted walk of the document), and
 * what one refresh of a configuration file does.
 */
module Documents {
  import opened Wrappers
  import opened Values
  import Strings
  import Os

  /** The options of a configuration-file provider. */
  datatype Options = Options(
    fileFromCml: bool,
    cmlSwitch: string,
    cmlPropertyOverride: bool,
    cmlPropertyOverrideSwitch: string,
    filename: string)

  /**
   * The filename after the command line has been consulted, when the switch
   * being absent clears it: the switch's value, or the empty name. Without
   * `fileFromCml` the configured name stays.
   */
  function FilenameFromCml(options: Options, switches: map<string, string>): (f: string)
    ensures !options.fileFromCml ==> f == options.filename
    ensures options.fileFromCml && options.cmlSwitch in switches ==> f == switches[options.cmlSwitch]
    ensures options.fileFromCml && options.cmlSwitch !in switches ==> f == ""
  {
    if !options.fileFromCml then options.filename
    else if options.cmlSwitch in switches then switches[options.cmlSwitch]
    else ""
  }

  /** The filename when an absent switch keeps the configured name. */
  function FilenameIfSwitched(options: Options, switches: map<string, string>): (f: string)
    ensures options.fileFromCml && options.cmlSwitch in switches ==> f == switches[options.cmlSwitch]
    ensures !(options.fileFromCml && options.cmlSwitch in switches) ==> f == options.filename
  {
    if options.fileFromCml && options.cmlSwitch in switches then switches[options.cmlSwitch]
    else options.filename
  }

  /** The command-line switch that overrides property `name`, when overrides are enabled. */
  function OverrideKey(options: Options, name: string): string
  {
    options.cmlPropertyOverrideSwitch + name
  }

  predicate Overridden(options: Options, switches: map<string, string>, name: string)
  {
    options.cmlPropertyOverride && OverrideKey(options, name) in switches
  }

  /**
   * The answer for `name`: the override switch's value when there is one,
   * otherwise the node the dotted walk reaches in the document, or nil.
   */
  function Resolve(options: Options, switches: map<string, string>, doc: Document, name: string): Value
  {
    if Overridden(options, switches, name) then Str(switches[OverrideKey(options, name)])
    else GetDotted(doc, name)
  }

  /** An override answers whatever the file holds. */
  lemma OverrideIgnoresDocument(options: Options, switches: map<string, string>, doc: Document, doc': Document, name: string)
    requires Overridden(options, switches, name)
    ensures Resolve(options, switches, doc, name) == Resolve(options, switches, doc', name) != Null
  {
  }

  /**
   * Without an override the answer depends on the document alone: any two
   * switch maps without the override key give the same answer, and a
   * non-nil answer means the first segment of the name is a key of the document.
   */
  lemma {:induction false} DocumentAnswersOtherwise(options: Options, switches: map<string, string>, switches': map<string, string>,
                                                    doc: Document, name: string)
    requires !Overridden(options, switches, name) && !Overridden(options, switches', name)
    ensures Resolve(options, switches, doc, name) == Resolve(options, switches', doc, name) == GetDotted(doc, name)
    ensures GetDotted(doc, name) != Null ==> KString(Strings.Split(name, '.')[0]) in doc
  {
    var path := Strings.Split(name, '.');
    if GetDotted(doc, name) != Null {
      LookupFoundThroughMappings(Map(doc), path, 0);
      assert path[..0] == [];
    }
  }

  /** An empty document answers nil to every name that is not overridden. */
  lemma EmptyDocumentAnswersNil(options: Options, switches: map<string, string>, name: string)
    requires !Overridden(options, switches, name)
    ensures Resolve(options, switches, map[], name) == Null
  {
    EmptyDocumentMisses(name);
  }

  // ---------------------------------------------------------------------
  // Reading a configuration file

  /** Reads and decodes a file: a read failure or a syntax error is an error. */
  function ReadDocument(fs: Os.FileSystem, filename: string, decode: Os.Decoder): (r: Result<Document, Os.Error>)
    ensures r.Ok? <==> Os.ReadFile(fs, filename).Ok? && decode(Os.ReadFile(fs, filename).value).Some?
    ensures r.Ok? ==> r.value == decode(fs[filename].contents).value
  {
    match Os.ReadFile(fs, filename)
    case Err(e) => Err(e)
    case Ok(b) =>
      match decode(b)
      case None => Err(Os.DecodeError(filename))
      case Some(doc) => Ok(doc)
  }

  /** The state a timed refresh leaves behind and what it reports. */
  datatype Refreshed = Refreshed(document: Option<Document>, changed: bool, err: Option<Os.Error>)

  /**
   * One refresh of the newer providers: nothing to do without a filename; a
   * file whose modification time is not after `timestamp` is not read; a
   * stat, read or decode failure keeps the old document. A successful read
   * installs the new document and reports `changed` as `reportsChange` says.
   */
  function TimedRefresh(fs: Os.FileSystem, filename: string, timestamp: int, decode: Os.Decoder,
                        document: Option<Document>, reportsChange: bool): Refreshed
  {
    if filename == "" then Refreshed(document, false, None)
    else
      match Os.Stat(fs, filename)
      case Err(e) => Refreshed(document, false, Some(e))
      case Ok(modTime) =>
        if modTime <= timestamp then Refreshed(document, false, None)
        else
          match ReadDocument(fs, filename, decode)
          case Err(e) => Refreshed(document, false, Some(e))
          case Ok(doc) => Refreshed(Some(doc), reportsChange, None)
  }

  /** A refresh that fails, or has nothing to read, leaves the document as it was. */
  lemma RefreshKeepsDocumentUnlessRead(fs: Os.FileSystem, filename: string, timestamp: int, decode: Os.Decoder,
                                       document: Option<Document>, reportsChange: bool)
    ensures var r := TimedRefresh(fs, filename, timestamp, decode, document, reportsChange);
            r.document != document ==>
              && r.err == None
              && filename in fs && fs[filename].modTime > timestamp
              && r.document == Some(decode(fs[filename].contents).value)
    ensures var r := TimedRefresh(fs, filename, timestamp, decode, document, reportsChange);
            r.err != None ==> r.document == document && !r.changed
  {
  }

  /**
   * `changed` holds exactly when the provider reports changes and a newer
   * file was read and decoded.
   */
  lemma RefreshChangedExactly(fs: Os.FileSystem, filename: string, timestamp: int, decode: Os.Decoder,
                              document: Option<Document>, reportsChange: bool)
    ensures TimedRefresh(fs, filename, timestamp, decode, document, reportsChange).changed
        <==> && reportsChange
             && filename != "" && filename in fs
             && fs[filename].modTime > timestamp
             && ReadDocument(fs, filename, decode).Ok?
  {
  }

  /** An unmodified file is not even opened: its contents do not matter. */
  lemma UnmodifiedFileNotRead(fs: Os.FileSystem, fs': Os.FileSystem, filename: string, timestamp: int, decode: Os.Decoder,
                              document: Option<Document>, reportsChange: bool)
    requires filename in fs && filename in fs'
    requires fs[filename].modTime == fs'[filename].modTime <= timestamp
    ensures TimedRefresh(fs, filename, timestamp, decode, document, reportsChange)
         == TimedRefresh(fs', filename, timestamp, decode, document, reportsChange)
         == Refreshed(document, false, None)
  {
  }

  /**
   * The timestamp is never moved forward, so refreshing again over the same
   * files reads the file again and reports the same outcome, `changed`
   * included.
   */
  lemma RepeatedRefreshRereads(fs: Os.FileSystem, filename: string, timestamp: int, decode: Os.Decoder,
                               document: Option<Document>, reportsChange: bool)
    requires TimedRefresh(fs, filename, timestamp, decode, document, reportsChange).err == None
    ensures var r := TimedRefresh(fs, filename, timestamp, decode, document, reportsChange);
            TimedRefresh(fs, filename, timestamp, decode, r.document, reportsChange) == r
  {
  }
}
