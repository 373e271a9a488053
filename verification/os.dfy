/**
 * What the providers ask of the operating system, turned into plain inputs:
 * the file system is a map from path to file, a decoder is a function from
 * bytes to a document, and the process environment is a map.
 */
module Os {
  import opened Wrappers
  import Values

  newtype byte = b: int | 0 <= b < 256

  /** A file as `os.Stat` and `ioutil.ReadFile` see it. */
  datatype FileEntry = FileEntry(modTime: int, readable: bool, contents: seq<byte>)

  type FileSystem = map<string, FileEntry>

  /** The process environment, as `os.LookupEnv` sees it. */
  type EnvVars = map<string, string>

  /** A JSON or YAML decoder: the root mapping of the document, or None on a syntax error. */
  type Decoder = seq<byte> -> Option<Values.Document>

  datatype Error =
    | StatError(path: string)
    | ReadError(path: string)
    | DecodeError(path: string)
    | Failure(message: string)

  /** `os.Stat(path).ModTime()`; the empty path never names a file. */
  function Stat(fs: FileSystem, path: string): Result<int, Error>
  {
    if path != "" && path in fs then Ok(fs[path].modTime) else Err(StatError(path))
  }

  /** `ioutil.ReadFile(path)`. */
  function ReadFile(fs: FileSystem, path: string): Result<seq<byte>, Error>
  {
    if path != "" && path in fs && fs[path].readable then Ok(fs[path].contents) else Err(ReadError(path))
  }
}
