/**
 * What the pipeline reads from its process and machine, given as inputs: the
 * working directory, the environment, the clock, package.json, and the file
 * system, path and module-loading functions of Node.js as abstract functions.
 */
module Host {
  import opened Wrappers
  import opened JsValue

  /** process.platform / os.platform() */
  datatype OsPlatform = Win32 | Darwin | Linux | OtherOs(name: string)

  /** The outcome of reading and parsing <cwd>/package.json. */
  datatype PackageRead = Unreadable(cause: string) | Parsed(json: Value)

  /** The local date and time fields of `new Date()`; month is 0-based as getMonth() returns it. */
  datatype DateParts = DateParts(year: int, month: int, day: int, hour: int, minute: int)

  predicate ValidDate(d: DateParts) {
    0 <= d.month < 12 && 1 <= d.day <= 31 && 0 <= d.hour < 24 && 0 <= d.minute < 60
  }

  /** A module object returned by require, identified by where it was loaded from. */
  datatype ModuleRef = ModuleRef(location: string)

  /** path.isAbsolute, path.resolve(base, p) and path.join(...parts). */
  datatype PathOps = PathOps(
    isAbsolute: string -> bool,
    resolve: (string, string) -> string,
    join: seq<string> -> string)

  /** path.resolve always produces an absolute path, and no absolute path is empty. */
  ghost predicate ResolvesToAbsolute(paths: PathOps) {
    && (forall base, p :: paths.isAbsolute(paths.resolve(base, p)))
    && !paths.isAbsolute("")
  }

  datatype Env = Env(
    cwd: string,                     // process.cwd()
    platform: OsPlatform,
    vars: map<string, string>,       // process.env
    uid: Option<int>,                // process.getuid?.(): None where getuid does not exist
    osHomedir: Option<string>,       // os.homedir(), None when os.homedir is not a function
    packageJson: PackageRead,
    now: DateParts,
    localeNow: string,               // new Date().toLocaleString()
    localeTimeNow: string)           // new Date().toLocaleTimeString()

  datatype Io = Io(
    paths: PathOps,
    pathExists: string -> bool,                        // fs.pathExists / fs.pathExistsSync
    readFile: string -> string,                      // fs.readFile(p, 'utf-8')
    md5Hex: string -> string,                        // crypto md5 digest in hex
    require: string -> Result<ModuleRef, string>)    // require(id), or the message of what it throws
}
