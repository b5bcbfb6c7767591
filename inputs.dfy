/** Everything the staging pipeline reads from outside the runtime record.
    Calls into code that is not part of this model (user-directory helpers,
    the desktop-entry reader and tokenizer, the flatpak manager, the file
    system) are function-typed fields: the model fixes what is passed to
    them and where their answers go, not what they answer. */
module Inputs {
  import opened RuntimeSpec

  datatype Host = Host(
    /** `getuid()` and `getgid()`. */
    uid: nat,
    gid: nat,
    /** The process environment read by `getenv` and `qEnvironmentVariable`. */
    environ: map<string, string>,
    /** Canonical paths of the `/dev/nvidia*` entries, in directory order. */
    nvidiaDevices: seq<string>,
    /** `util::getUserFile(rel)`: a path under the user's home. */
    userFile: string -> string,
    /** `util::ensureUserDir(parts)`: creates the directory and returns its path. */
    ensureUserDir: seq<string> -> string,
    /** `util::jonsPath(parts)`. */
    joinPaths: seq<string> -> string,
    /** `util::dirExists(path)`. */
    dirExists: string -> bool,
    /** The `*.desktop` files listed in a directory. */
    desktopFiles: string -> seq<string>,
    /** The raw `Exec` value of the desktop entry at a path. */
    rawExec: string -> string,
    /** `util::parseExec`: splits a command line into words. */
    parseExec: string -> seq<string>,
    /** `FlatpakManager` lookups by application id. */
    flatpakRuntimePath: string -> string,
    flatpakAppPath: string -> string,
    flatpakDesktopFiles: string -> seq<string>)
  {
    /** `getenv(name)` converted to a string: empty when unset. */
    function Getenv(name: string): string {
      if name in environ then environ[name] else ""
    }

    /** `qEnvironmentVariable(name, default)`: the default only when unset. */
    function EnvOr(name: string, default: string): string {
      if name in environ then environ[name] else default
    }

    /** The sandboxed home, `getUserFile("")`. */
    function Home(): string {
      userFile("")
    }
  }

  /** The per-launch configuration of `AppPrivate`: flatpak mode, the
      command override, the container's working directory, the layer roots
      the repository resolved, the two application ids, and the optional
      permission mount list of the application's config. */
  datatype Launch = Launch(
    useFlatpakRuntime: bool,
    desktopExec: string,
    workingDirectory: string,
    runtimeId: string,
    runtimeRoot: string,
    appId: string,
    appRoot: string,
    permission: Option<seq<string>>)
}
