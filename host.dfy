/**
 * What the resolver reads from its process and operating system, made
 * explicit: the platform string, the environment variables, the home
 * directory, the interpreter's prefixes, and the Windows calls it makes.
 */
module Host {
  import opened Types
  import opened OsPath

  /**
   * The platform flags set once at import time (WINDOWS / MACOSX / LINUX in
   * dwave_appdirs, the `system` dict in appdirs).
   */
  datatype Flags = Flags(windows: bool, macosx: bool, linux: bool)

  /**
   * sys.platform decides the flags: "win32" is Windows, "darwin" is macOS,
   * and every other platform is taken for Linux. Exactly one flag is set,
   * so the resolvers' final "unsupported operating system" branch cannot
   * be reached.
   */
  function DetectPlatform(sysPlatform: string): (f: Flags)
    ensures f.windows <==> sysPlatform == "win32"
    ensures f.macosx <==> sysPlatform == "darwin"
    ensures f.linux <==> sysPlatform != "win32" && sysPlatform != "darwin"
    ensures (f.windows && !f.macosx && !f.linux) || (!f.windows && f.macosx && !f.linux)
         || (!f.windows && !f.macosx && f.linux)
  {
    if sysPlatform == "win32" then Flags(true, false, false)
    else if sysPlatform == "darwin" then Flags(false, true, false)
    else Flags(false, false, true)
  }

  /** os.path is ntpath on Windows and posixpath elsewhere. */
  function FlavourOf(f: Flags): Flavour
  {
    if f.windows then Nt else Posix
  }

  /**
   * The interpreter attributes consulted for virtualenv detection: sys.prefix,
   * and sys.real_prefix / sys.base_prefix when the attribute exists.
   */
  datatype Interpreter = Interpreter(
    prefix: string,
    realPrefix: Option<string>,
    basePrefix: Option<string>)

  /**
   * _in_virtualenv_folder: a virtualenv sets sys.real_prefix, and the
   * standard venv module makes sys.base_prefix differ from sys.prefix.
   */
  predicate InVirtualenv(i: Interpreter)
  {
    i.realPrefix.Some? || (i.basePrefix.Some? && i.basePrefix.value != i.prefix)
  }

  /**
   * Everything the resolver reads from outside: sys.platform, os.environ, the
   * home directory os.path.expanduser uses, the interpreter, and three calls
   * it does not implement -- SHGetFolderPathW (CSIDL number to folder),
   * GetShortPathNameW (None where it returns 0) and os.path.normpath.
   */
  datatype Host = Host(
    platform: string,
    env: map<string, string>,
    home: string,
    interp: Interpreter,
    shellFolder: int -> string,
    shortPath: string -> Option<string>,
    normpath: string -> string)

  /** os.getenv(name, default): the variable's value when it is set, even if empty. */
  function Getenv(env: map<string, string>, name: string, default: string): string
  {
    if name in env then env[name] else default
  }
}
