/**
 * The operating-system facts the configuration core consults, passed in as
 * values: the home-directory lookup, the MMSYNC_CONF variable, `os.Stat` and
 * `os.ReadFile`. Nothing here performs I/O.
 */
module Os {
  import opened FilePath

  type Bytes = seq<bv8>

  /** An OS error code, for errors other than "does not exist". */
  type Errno = nat

  /** The outcome of `os.UserHomeDir`. */
  datatype HomeLookup = HomeDir(dir: Path) | NoHome

  /** The outcome of `os.Stat`, as `os.IsNotExist` classifies it. */
  datatype StatResult = Exists(isDir: bool) | Missing | StatFailed(errno: Errno)

  /** The outcome of `os.ReadFile`, as `os.IsNotExist` classifies it. */
  datatype ReadOutcome = FileData(bytes: Bytes) | FileMissing | ReadFailed(errno: Errno)

  /** One consistent view of the machine during a single load. */
  datatype World = World(
    home: HomeLookup,
    mmsyncConf: string,
    stat: Path -> StatResult,
    readFile: Path -> ReadOutcome)

  /** The errors a load reports; wrapped messages are not modelled. */
  datatype LoadError = ReadError(errno: Errno) | DecodeError | SaveError
}
