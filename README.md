# linglong launch-spec compiler, modelled in Dafny

Before the box launcher (`ll-box`) can run an application, linglong's
application runtime fills in one runtime specification. That record holds
the top-level mounts, the rootfs annotation (an overlayfs variant or a
native variant, each with its own mount list), the process environment,
the arguments and working directory, and the uid/gid maps.
`AppPrivate::prepare` in `src/module/runtime/app.cpp` fills it by running
these stages in a fixed order:

1. the rootfs strategy and layer list;
2. the system devices;
3. the host paths and devices;
4. the user data, environment and identity maps;
5. the permission-declared mounts.

It then binds the environment file and settles the command line from the
desktop entry.

The model has five modules, one per file:

- `Strings` (`strings.dfy`) covers the Qt string and list operations the
  stages use: `contains`, `join`, `split` that keeps empty parts, `value`,
  `replace` and `arg`. Each is stated on `seq<char>` and comes with the
  property the stages depend on.
- `RuntimeSpec` (`runtime_spec.dfy`) holds the record's value types, a
  `Record` that is the record's whole value, and the class `Runtime`. The
  class keeps the record as sequence fields, which the stages extend in
  place.
- `Inputs` (`inputs.dfy`) holds everything the stages read from outside:
  - `Host` gives the uid and gid, the environment as a map, the nvidia
    device list, and the foreign helpers as function-typed fields;
  - `Launch` gives the flatpak flag, the command override, the container
    directory, the resolved layer roots, the application id and the
    optional permission mount list.
- `LaunchPlan` (`launch_plan.dfy`) says what each stage does to the
  record, as a pure function `Record -> Record`, along with the fixed
  tables. Its lemmas state the properties of the finished plan:
  - strategy selection;
  - rootfs list order;
  - top-level mount order;
  - environment order;
  - identity maps;
  - permission mounts;
  - command resolution.
- `App` (`app.dfy`) holds the class `AppPrivate`, with one method per
  stage plus `Prepare` and `Start`. Each method loops over its local table
  and appends to the record the way the source does. Each is proved to
  leave the record exactly as the matching `LaunchPlan` function says.

The model keeps these behaviours of the code:

- The whitelisted host variables are forwarded even when unset, as
  `NAME=` (`UserEnvOrder`, `ForwardedEnvShape`).
- The command override is used only when the template supplies no
  arguments. Template arguments win over it (`CommandLine`).
- An empty desktop-file list makes `prepare` return -1 even when an
  override was supplied, and the arguments are then left as the template
  had them (`PrepareStatus`).
- The environment file is bound with options `["rbind"]` only
  (`EnvFileMount`).
- `/var` is bound read-only, with the other thirteen host table entries
  (`HostMountsShape`).
- The -1 of the rootfs stage is not consulted by `prepare`: all other
  stages and the env-file mount still happen (`Staged`, `PrepareMounts`).
  The status of `prepare` is not consulted by `start` either (`Start`).
- With `XAUTHORITY` unset, the last user mount binds the empty path onto
  itself (`XauthorityUnset`).

## Model

| member | source | states |
|---|---|---|
| Strings.ContainsAt | src/module/runtime/app.cpp:164 | `contains` holds exactly when the marker occurs at some position of the runtime path |
| Strings.Split | src/module/runtime/app.cpp:496 | splitting a permission string on `:` gives at least one part, and no part holds a `:` |
| Strings.JoinSplit | src/module/runtime/app.cpp:496 | joining the parts of a split with the separator gives back the original string |
| Strings.SplitJoin | src/module/runtime/app.cpp:496 | splitting a join of colon-free parts returns exactly those parts |
| Strings.ReplaceAbsent | src/module/runtime/app.cpp:483-489 | a path without the placeholder comes out of the replacement unchanged |
| Strings.ReplaceFirst | src/module/runtime/app.cpp:483-489 | the first occurrence of the placeholder is replaced and the scan resumes right after it |
| Strings.NatToDecimal | src/module/runtime/app.cpp:314 | the uid text is at least one decimal digit, with no leading zero unless the uid is 0 |
| Strings.DecimalRoundTrip | src/module/runtime/app.cpp:314 | reading back the decimal text of the uid gives the uid |
| Strings.NatToDecimalInjective | src/module/runtime/app.cpp:314 | distinct uids give distinct decimal texts |
| RuntimeSpec.Runtime.constructor | src/module/runtime/app.cpp:55-56 | the runtime record starts as the template skeleton |
| RuntimeSpec.Runtime.PushBinds | src/module/runtime/app.cpp:145-153 | the table loop appends one bind per entry, in table order, with the given options, and changes nothing else |
| LaunchPlan.StrategyRules | src/module/runtime/app.cpp:159-171 | fuse overlay iff the runtime path contains `org.deepin.Wine` and flatpak mode is off; flatpak mode forces native and full; otherwise the runtime is thin |
| LaunchPlan.RootfsAnnotationsShape | src/module/runtime/app.cpp:173-186 | exactly one variant is populated: overlayfs iff fuse. It holds the given mounts, its root is the container directory, and the overlay paths are `<wd>/.overlayfs/{lower_parent,upper,workdir}` |
| LaunchPlan.ThinFuseOrder | src/module/runtime/app.cpp:188-224 | thin plus fuse gives exactly the eight-entry layer list, whose runtime `/usr` override comes before the host `/usr` |
| LaunchPlan.ThinNativeOrder | src/module/runtime/app.cpp:188-224 | thin without the marker gives exactly host `/usr`, host `/etc`, runtime `/usr` on `/runtime`, then the two application entries |
| LaunchPlan.FlatpakRootfs | src/module/runtime/app.cpp:204-224 | flatpak mode uses the flatpak runtime on `/usr` and the flatpak application on `/app`. An empty flatpak runtime path returns -1 with an empty native variant and no environment entry |
| LaunchPlan.RootfsStageOverlay | src/module/runtime/app.cpp:159-186 | the stage always sets an annotation, and it is the overlayfs variant iff the runtime path contains `org.deepin.Wine` and flatpak mode is off |
| LaunchPlan.RootfsStageFails | src/module/runtime/app.cpp:204-212 | the stage returns -1 iff flatpak mode is on and the flatpak runtime path is empty; a thin runtime never fails |
| LaunchPlan.RootfsStageShape | src/module/runtime/app.cpp:173-256 | the stage returns 0 or -1 and touches only the annotation and the environment, so top-level mounts and the rest are unchanged. Every variant mount is a `[ro, rbind]` bind. On -1 the variant is empty and the environment is unchanged. On 0 the three library entries are appended |
| LaunchPlan.LdLibraryPathOrder | src/module/runtime/app.cpp:241-253 | `LD_LIBRARY_PATH` is the application's `lib` directory, then `/runtime/lib`, `/runtime/lib/x86_64-linux-gnu` and `/runtime/lib/i386-linux-gnu`, colon-separated |
| LaunchPlan.AppDirJoin | src/module/runtime/app.cpp:241 | the non-flatpak application directory is the `/`-join of `/opt/apps`, the id and `files/<sub>` |
| LaunchPlan.SystemStageShape | src/module/runtime/app.cpp:139-154 | the system stage appends `/dev/dri` then `/dev/snd`, both read-write rbinds, and changes nothing else |
| LaunchPlan.HostMountsShape | src/module/runtime/app.cpp:261-304 | the host stage appends the fourteen table entries in order, then one entry per nvidia device in discovery order (all `[ro, rbind]`), then `/tmp/.X11-unix` as a read-write rbind |
| LaunchPlan.UserRuntimeDirInjective | src/module/runtime/app.cpp:314 | distinct uids get distinct `/run/user/<uid>` directories |
| LaunchPlan.UserMountsShape | src/module/runtime/app.cpp:314-396 | the user stage's mounts are a `[nodev, nosuid]` tmpfs at `/run/user/<uid>`, then nine rbinds, then five `[ro, rbind]` binds, the last binding the `XAUTHORITY` value onto itself |
| LaunchPlan.XauthorityUnset | src/module/runtime/app.cpp:385-386 | with `XAUTHORITY` unset, the last user mount binds the empty path onto the empty path |
| LaunchPlan.OwnUserEnvOrder | src/module/runtime/app.cpp:397-416 | the stage's own six entries, in order: `PATH` (exactly the binary directory, `:`, then the host `PATH`), `HOME`, `XDG_RUNTIME_DIR`, the session bus, `XDG_DATA_DIRS` (share directory, `/runtime/share`, then the host value when it is set and the default only when it is unset), `XDG_DATA_HOME` |
| LaunchPlan.DataDirsJoin | src/module/runtime/app.cpp:411-413 | the `:`-join of the three data-directory parts is share, `/runtime/share`, then the inherited value |
| LaunchPlan.ForwardedEnvShape | src/module/runtime/app.cpp:418-420 | forwarding gives one entry per name, in order: `NAME=` followed by the host's value unchanged when the host sets it, and `NAME=` alone when it does not |
| LaunchPlan.UserEnvOrder | src/module/runtime/app.cpp:397-440 | the user stage's environment is its six own entries, then one entry per whitelist name in list order, 21 in all. Each is `NAME=` plus the host's value when it is set, and `NAME=` alone when it is not |
| LaunchPlan.IdentityMaps | src/module/runtime/app.cpp:444-466 | on empty maps, the user stage leaves exactly one uid map `{uid, 0, 1}` and exactly one gid map `{gid, 0, 1}` |
| LaunchPlan.MountStageShape | src/module/runtime/app.cpp:475-501 | no permission object leaves the record unchanged. Otherwise exactly one read-write rbind is appended per permission string, in order, and nothing else changes |
| LaunchPlan.PermissionMountParts | src/module/runtime/app.cpp:496-498 | a `src:dst[:more]` string binds the substituted first part onto the substituted second part; later parts are ignored |
| LaunchPlan.PermissionMountNoColon | src/module/runtime/app.cpp:496-498 | a string without `:` binds onto the empty destination |
| LaunchPlan.PathPreprocessLeadingHome | src/module/runtime/app.cpp:479-489 | a leading `${HOME}` becomes the home path, and a path without `$` is kept as it is |
| LaunchPlan.IndexOfFieldCode | src/module/runtime/app.cpp:128 | the result is the index of the first token that is exactly `%` plus one word character, or -1 when no token is |
| LaunchPlan.StripFirstFieldCode | src/module/runtime/app.cpp:128-131 | exactly the first field-code token is removed; the other tokens keep their order |
| LaunchPlan.StripNoFieldCode | src/module/runtime/app.cpp:128-131 | without a field code the tokens are unchanged |
| LaunchPlan.StripOnlyFirst | src/module/runtime/app.cpp:128-131 | of two field codes at positions i < j only the one at i is removed: the one at j survives, one place forward, and the list shrinks by one |
| LaunchPlan.CommandLineExample | src/module/runtime/app.cpp:119-131 | with no template args and no override, `Exec=app %f --flag` resolves to `["app", "--flag"]` |
| LaunchPlan.StagedKeeps | src/module/runtime/app.cpp:78-104 | the stages and the env-file mount leave the arguments and the root path alone |
| LaunchPlan.PrepareStatus | src/module/runtime/app.cpp:108-134 | `prepare` returns -1 iff the desktop-file list is empty, and then the template args are untouched. Otherwise it returns 0 and the args come from the template, the override or the first entry's `Exec`, with the first field code stripped |
| LaunchPlan.PrepareMounts | src/module/runtime/app.cpp:78-104 | the final top-level mounts are the template's, then the system, host, user and permission mounts, then the env file on `/run/app/env`, whatever the rootfs stage returned |
| LaunchPlan.PrepareEnv | src/module/runtime/app.cpp:78-86 | the final environment is the template's, then the three library entries when the rootfs stage succeeded, then the user stage's entries; nothing is removed |
| LaunchPlan.PrepareIdentity | src/module/runtime/app.cpp:78-86 | after `prepare`, one uid and one gid map have been appended, the working directory is the sandboxed home, and the root path is kept |
| App.AppPrivate.constructor | src/module/runtime/app.cpp:55-56 | the private object keeps its configuration and a fresh runtime record equal to the template |
| App.AppPrivate.StageSystem | src/module/runtime/app.cpp:137-155 | returns 0 and leaves the record as `SystemStage` says |
| App.AppPrivate.StageRootfs | src/module/runtime/app.cpp:157-257 | flips the two flags step by step, sets the annotation, and fills the chosen variant. Its status and new record are exactly `RootfsStage`, including the -1 path |
| App.AppPrivate.RootfsMountMap | src/module/runtime/app.cpp:188-224 | building the layer table with `push_front`/`push_back` gives `RootfsTable`, or None when a full runtime has no root |
| App.AppPrivate.FillRootfs | src/module/runtime/app.cpp:226-238 | each table entry becomes a `[ro, rbind]` bind on the selected variant only, in order |
| App.AppPrivate.PushRootfsEnv | src/module/runtime/app.cpp:240-255 | appends the library and Qt plugin entries of `RootfsEnv` |
| App.AppPrivate.StageHost | src/module/runtime/app.cpp:259-307 | returns 0 and leaves the record as `HostStage` says |
| App.AppPrivate.StageUser | src/module/runtime/app.cpp:309-469 | returns 0 and leaves the record as `UserStage` says: mounts, environment, working directory and identity maps |
| App.AppPrivate.PushUserMounts | src/module/runtime/app.cpp:314-396 | appends exactly `UserMounts` |
| App.AppPrivate.PushUserEnv | src/module/runtime/app.cpp:397-440 | appends exactly `UserEnv` |
| App.AppPrivate.PushOwnUserEnv | src/module/runtime/app.cpp:397-416 | computes the binary and share directories by join or flatpak override and appends `OwnUserEnv` |
| App.AppPrivate.PushOwnEntries | src/module/runtime/app.cpp:402-416 | appends the six entries of `OwnUserEnv` in order |
| App.AppPrivate.ForwardEnv | src/module/runtime/app.cpp:418-440 | the whitelist loop appends `ForwardedEnv` |
| App.AppPrivate.PushIdMaps | src/module/runtime/app.cpp:444-466 | the two map loops append one uid map `{uid, 0, 1}` and one gid map `{gid, 0, 1}` |
| App.AppPrivate.StageMount | src/module/runtime/app.cpp:471-504 | returns 0 and leaves the record as `MountStage` says |
| App.AppPrivate.Prepare | src/module/runtime/app.cpp:64-135 | status and new record are exactly `PrepareSpec` |
| App.AppPrivate.RunStages | src/module/runtime/app.cpp:66-104 | the `/files` fallback, the five stages in order with the rootfs status dropped, then the env-file bind, giving `Staged` |
| App.AppPrivate.ResolveArgs | src/module/runtime/app.cpp:119-131 | the args become `CommandLine` of the template args, the override and the entry's `Exec` |
| App.AppPrivate.Start | src/module/runtime/app.cpp:614-621 | sets the root path to `<wd>/root`, then runs `prepare` and ignores its status |

## Left out

- The process part of `App::start` (src/module/runtime/app.cpp:623-663) is not modelled. It covers the pid file, serialising the record to JSON, the pipe, `prctl`, `fork`, `dup2`, `execvp` and `waitpid`. These are OS calls and process-level concurrency. The pid is recorded and never cleared there.
- The `util::ensureDir` call on the root path (619) is left out, because it is file-system I/O.
- `loadConfig`, `init` and the JSON/YAML loading of the template and app config are not modelled. The template arrives as the `skeleton` record, and the app config as the `Launch` fields.
- Writing the environment file (88-96) is file I/O and is left out. Its bind mount is modelled.
- `package::Ref` parsing and `repo->rootOfLayer` are not modelled. The resolved ids and layer roots arrive in `Launch`. `runtimeId` is passed to `StageRootfs` and is unused there, as in the source.
- The foreign helpers are inputs: function-typed fields of `Host`, so the model fixes their arguments and where their answers go, not what they answer. They are:
  - `util::getUserFile`;
  - `util::ensureUserDir`, including its directory creation;
  - `util::jonsPath`;
  - `util::dirExists`;
  - the `QDir` listing of `*.desktop` files;
  - `DesktopEntry::rawValue("Exec")`;
  - `util::parseExec`;
  - the `FlatpakManager` lookups;
  - the `/dev/nvidia*` discovery with its canonical paths.
- `getenv` and `qEnvironmentVariable` read the `environ` map of `Host`. A null `getenv` result is the empty string.
- `getuid` and `getgid` are the `Host` fields `uid` and `gid`, as unbounded naturals. The 32-bit and `quint64` widths do not matter here, because the values are only copied and printed.
- LaunchPlan.IsFieldCode: the word character of `\w` is ASCII letters, digits and `_`. Non-ASCII letters that Qt's `\w` also accepts are not modelled, because there is no Unicode classification available.
- LaunchPlan.PathPreprocess: the replacement map has the single key `${HOME}`, so its loop is one `ReplaceAll`.
- LaunchPlan.AbsoluteFilePath: `QDir::absoluteFilePath` path cleaning is not modelled. An absolute name is kept and a relative one is appended after `/`.
- The disabled session-bus proxy (326-331) is the constant `UseDBusProxy = false`.
- `qDebug`/`qCritical` logging is left out.
- Qt parent ownership and the pointer graph between runtime, annotations and mounts are replaced by value-typed records in sequences. No mount is shared or aliased.
- `test/module/util/uuid_test.cpp` is not modelled. It only checks that a random identifier is non-empty, and the generator is not part of this model.
