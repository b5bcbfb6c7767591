/** What each staging step of the launch-spec compiler does to the runtime
    record, as pure functions `Record -> Record`, with the fixed tables they
    use and the properties of the finished plan: strategy selection, rootfs
    list order, top-level mount order, environment order, identity maps,
    permission mounts and command resolution. */
module LaunchPlan {
  import opened Strings
  import opened RuntimeSpec
  import opened Inputs

  /** The runtime name segment that selects the fuse overlay. */
  const WineMarker: string := "org.deepin.Wine"
  /** The one placeholder of permission mount strings. */
  const HomeKey: string := "${HOME}"
  /** The proxied-bus policy, currently disabled. */
  const UseDBusProxy: bool := false
  const EnvFileDestination: string := "/run/app/env"

  // ---------------------------------------------------------------- rootfs

  datatype Strategy = Strategy(fuse: bool, thin: bool)

  /** The fuse/thin decision from the runtime path and flatpak mode. */
  function SelectStrategy(runtimeRootPath: string, useFlatpak: bool): Strategy {
    if useFlatpak then Strategy(false, false)
    else Strategy(Contains(runtimeRootPath, WineMarker), true)
  }

  function OverlayPath(wd: string, name: string): string {
    JoinWith([wd, ".overlayfs", name], "/")
  }

  /** The fresh annotation of a strategy, holding the rootfs mounts `ms`. */
  function RootfsAnnotations(s: Strategy, wd: string, ms: seq<Mount>): Annotations {
    if s.fuse then
      Annotations(wd, Some(OverlayfsRootfs(OverlayPath(wd, "lower_parent"), OverlayPath(wd, "upper"),
                                           OverlayPath(wd, "workdir"), ms)), None)
    else
      Annotations(wd, None, Some(NativeRootfs(ms)))
  }

  /** The mount list of whichever variant is populated. */
  function VariantMounts(a: Annotations): seq<Mount> {
    if a.overlayfs.Some? then a.overlayfs.value.mounts
    else if a.native.Some? then a.native.value.mounts
    else []
  }

  /** `/opt/apps/<id>/files/<sub>`, or `/app/<sub>` in flatpak mode. */
  function AppDir(appId: string, useFlatpak: bool, sub: string): string {
    if useFlatpak then "/app/" + sub else "/opt/apps/" + appId + "/files/" + sub
  }

  function ThinBase(runtimeRoot: string): seq<(string, string)> {
    [("/usr", "/usr"), ("/etc", "/etc"), (runtimeRoot + "/usr", "/runtime")]
  }

  function WineExtras(runtimeRoot: string): seq<(string, string)> {
    [(runtimeRoot + "/opt/deepinwine", "/opt/deepinwine"),
     (runtimeRoot + "/opt/deepin-wine6-stable", "/opt/deepin-wine6-stable")]
  }

  function AppLayerTable(useFlatpak: bool, h: Host, appId: string, appRoot: string): seq<(string, string)> {
    if useFlatpak then [(h.flatpakAppPath(appId), "/app")]
    else [(appRoot, "/opt/apps/" + appId), (appRoot + "/files/lib", "/run/app/lib")]
  }

  /** The runtime part of the rootfs list, or None when a full runtime has
      no root. */
  function RuntimeLayerTable(s: Strategy, useFlatpak: bool, h: Host, runtimeRoot: string, appId: string)
    : Option<seq<(string, string)>>
  {
    if s.thin then
      Some((if s.fuse then [(runtimeRoot + "/usr", "/usr")] else [])
           + ThinBase(runtimeRoot)
           + (if s.fuse then WineExtras(runtimeRoot) else []))
    else
      var full := if useFlatpak then h.flatpakRuntimePath(appId) else runtimeRoot;
      if full == "" then None else Some([(full, "/usr")])
  }

  /** The rootfs `source -> destination` list: the runtime part, then the
      application layer. */
  function RootfsTable(s: Strategy, useFlatpak: bool, h: Host, runtimeRoot: string, appId: string,
                       appRoot: string): Option<seq<(string, string)>>
  {
    var t := RuntimeLayerTable(s, useFlatpak, h, runtimeRoot, appId);
    if t.None? then None else Some(t.value + AppLayerTable(useFlatpak, h, appId, appRoot))
  }

  /** The library search path: the application's own `lib` first, then
      the runtime's generic and per-architecture directories. */
  function LdLibraryDirs(appId: string, useFlatpak: bool): seq<string> {
    [AppDir(appId, useFlatpak, "lib"), "/runtime/lib", "/runtime/lib/x86_64-linux-gnu", "/runtime/lib/i386-linux-gnu"]
  }

  function RootfsEnv(appId: string, useFlatpak: bool): seq<string> {
    ["LD_LIBRARY_PATH=" + JoinWith(LdLibraryDirs(appId, useFlatpak), ":"),
     "QT_PLUGIN_PATH=/usr/lib/plugins:/runtime/plugins",
     "QT_QPA_PLATFORM_PLUGIN_PATH=/usr/lib/plugins/platforms:/runtime/plugins/platforms"]
  }

  /** The rootfs stage: status and new record. */
  function RootfsStage(rec: Record, wd: string, useFlatpak: bool, h: Host, runtimeRoot: string,
                       appId: string, appRoot: string): (int, Record)
  {
    var s := SelectStrategy(runtimeRoot, useFlatpak);
    var t := RootfsTable(s, useFlatpak, h, runtimeRoot, appId, appRoot);
    if t.None? then (-1, rec.(annotations := Some(RootfsAnnotations(s, wd, []))))
    else (0, rec.(annotations := Some(RootfsAnnotations(s, wd, Binds(t.value, RoRbind))),
                  env := rec.env + RootfsEnv(appId, useFlatpak)))
  }

  /** Fuse overlay iff the runtime path holds the marker outside flatpak
      mode; flatpak mode forces native and full; otherwise thin. */
  lemma StrategyRules(runtimeRootPath: string, useFlatpak: bool)
    ensures SelectStrategy(runtimeRootPath, useFlatpak).fuse <==> (Contains(runtimeRootPath, WineMarker) && !useFlatpak)
    ensures useFlatpak ==> SelectStrategy(runtimeRootPath, useFlatpak) == Strategy(false, false)
    ensures !useFlatpak ==> SelectStrategy(runtimeRootPath, useFlatpak).thin
  {
  }

  /** Exactly one variant is populated, it holds `ms`, and the overlay
      scratch paths sit under `<wd>/.overlayfs`. */
  lemma {:induction false} RootfsAnnotationsShape(s: Strategy, wd: string, ms: seq<Mount>)
    ensures RootfsAnnotations(s, wd, ms).OneVariant()
    ensures RootfsAnnotations(s, wd, ms).containerRootPath == wd
    ensures VariantMounts(RootfsAnnotations(s, wd, ms)) == ms
    ensures RootfsAnnotations(s, wd, ms).overlayfs.Some? <==> s.fuse
    ensures s.fuse ==> (RootfsAnnotations(s, wd, ms).overlayfs.value ==
      OverlayfsRootfs(wd + "/.overlayfs/lower_parent", wd + "/.overlayfs/upper", wd + "/.overlayfs/workdir", ms))
  {
    if s.fuse {
      JoinWith3(wd, ".overlayfs", "lower_parent", "/");
      JoinWith3(wd, ".overlayfs", "upper", "/");
      JoinWith3(wd, ".overlayfs", "workdir", "/");
      assert "/" + ".overlayfs" + "/" == "/.overlayfs/";
    }
  }

  /** Thin runtime with fuse overlay: the exact eight-entry list, whose
      runtime `/usr` override comes before the host `/usr`. */
  lemma ThinFuseOrder(h: Host, runtimeRoot: string, appId: string, appRoot: string)
    requires Contains(runtimeRoot, WineMarker)
    ensures RootfsTable(SelectStrategy(runtimeRoot, false), false, h, runtimeRoot, appId, appRoot) ==
      Some([(runtimeRoot + "/usr", "/usr"), ("/usr", "/usr"), ("/etc", "/etc"), (runtimeRoot + "/usr", "/runtime"),
            (runtimeRoot + "/opt/deepinwine", "/opt/deepinwine"),
            (runtimeRoot + "/opt/deepin-wine6-stable", "/opt/deepin-wine6-stable"),
            (appRoot, "/opt/apps/" + appId), (appRoot + "/files/lib", "/run/app/lib")])
  {
    assert SelectStrategy(runtimeRoot, false) == Strategy(true, true);
    var app := AppLayerTable(false, h, appId, appRoot);
    assert app == [(appRoot, "/opt/apps/" + appId), (appRoot + "/files/lib", "/run/app/lib")];
    assert [(runtimeRoot + "/usr", "/usr")] + ThinBase(runtimeRoot) + WineExtras(runtimeRoot) + app ==
      [(runtimeRoot + "/usr", "/usr"), ("/usr", "/usr"), ("/etc", "/etc"), (runtimeRoot + "/usr", "/runtime"),
       (runtimeRoot + "/opt/deepinwine", "/opt/deepinwine"),
       (runtimeRoot + "/opt/deepin-wine6-stable", "/opt/deepin-wine6-stable"),
       (appRoot, "/opt/apps/" + appId), (appRoot + "/files/lib", "/run/app/lib")];
  }

  /** Thin runtime without the marker: host /usr and /etc, the runtime
      under /runtime, then the application layer. */
  lemma ThinNativeOrder(h: Host, runtimeRoot: string, appId: string, appRoot: string)
    requires !Contains(runtimeRoot, WineMarker)
    ensures RootfsTable(SelectStrategy(runtimeRoot, false), false, h, runtimeRoot, appId, appRoot) ==
      Some([("/usr", "/usr"), ("/etc", "/etc"), (runtimeRoot + "/usr", "/runtime"),
            (appRoot, "/opt/apps/" + appId), (appRoot + "/files/lib", "/run/app/lib")])
  {
    assert SelectStrategy(runtimeRoot, false) == Strategy(false, true);
    var app := AppLayerTable(false, h, appId, appRoot);
    assert app == [(appRoot, "/opt/apps/" + appId), (appRoot + "/files/lib", "/run/app/lib")];
    assert [] + ThinBase(runtimeRoot) + [] + app ==
      [("/usr", "/usr"), ("/etc", "/etc"), (runtimeRoot + "/usr", "/runtime"),
       (appRoot, "/opt/apps/" + appId), (appRoot + "/files/lib", "/run/app/lib")];
  }

  /** Flatpak mode: the full runtime from the flatpak lookup and /app; with
      an empty runtime path the stage fails, adds no rootfs mount and no
      environment entry. */
  lemma FlatpakRootfs(rec: Record, wd: string, h: Host, runtimeRoot: string, appId: string, appRoot: string)
    ensures var fp := h.flatpakRuntimePath(appId);
      RootfsTable(SelectStrategy(runtimeRoot, true), true, h, runtimeRoot, appId, appRoot) ==
        (if fp == "" then None else Some([(fp, "/usr"), (h.flatpakAppPath(appId), "/app")]))
    ensures h.flatpakRuntimePath(appId) == "" ==>
      RootfsStage(rec, wd, true, h, runtimeRoot, appId, appRoot) ==
        (-1, rec.(annotations := Some(Annotations(wd, None, Some(NativeRootfs([]))))))
  {
    assert SelectStrategy(runtimeRoot, true) == Strategy(false, false);
    assert AppLayerTable(true, h, appId, appRoot) == [(h.flatpakAppPath(appId), "/app")];
    assert [(h.flatpakRuntimePath(appId), "/usr")] + [(h.flatpakAppPath(appId), "/app")] ==
      [(h.flatpakRuntimePath(appId), "/usr"), (h.flatpakAppPath(appId), "/app")];
  }

  /** The rootfs stage never touches the top-level mounts: its entries go to
      the selected variant only, each a read-only rbind; the environment gets
      the three library entries exactly when the stage succeeds. */
  lemma {:induction false} RootfsStageShape(rec: Record, wd: string, useFlatpak: bool, h: Host,
                                            runtimeRoot: string, appId: string, appRoot: string)
    ensures var (st, r) := RootfsStage(rec, wd, useFlatpak, h, runtimeRoot, appId, appRoot);
      && (st == 0 || st == -1)
      && r == rec.(annotations := r.annotations, env := r.env)
      && r.annotations.Some? && r.annotations.value.OneVariant()
      && (forall m :: m in VariantMounts(r.annotations.value) ==> m.kind == Bind && m.options == RoRbind)
      && (st == -1 ==> VariantMounts(r.annotations.value) == [] && r.env == rec.env)
      && (st == 0 ==> r.env == rec.env + RootfsEnv(appId, useFlatpak))
  {
    var s := SelectStrategy(runtimeRoot, useFlatpak);
    var t := RootfsTable(s, useFlatpak, h, runtimeRoot, appId, appRoot);
    var ms := if t.None? then [] else Binds(t.value, RoRbind);
    RootfsAnnotationsShape(s, wd, ms);
  }

  /** The stage's annotation is the overlay variant exactly when the runtime
      path holds the marker outside flatpak mode. */
  lemma RootfsStageOverlay(rec: Record, wd: string, useFlatpak: bool, h: Host,
                           runtimeRoot: string, appId: string, appRoot: string)
    ensures var r := RootfsStage(rec, wd, useFlatpak, h, runtimeRoot, appId, appRoot).1;
      r.annotations.Some? &&
      (r.annotations.value.overlayfs.Some? <==> (Contains(runtimeRoot, WineMarker) && !useFlatpak))
  {
    var s := SelectStrategy(runtimeRoot, useFlatpak);
    var t := RootfsTable(s, useFlatpak, h, runtimeRoot, appId, appRoot);
    RootfsAnnotationsShape(s, wd, []);
    if t.Some? {
      RootfsAnnotationsShape(s, wd, Binds(t.value, RoRbind));
    }
  }

  /** The stage fails exactly in flatpak mode with an empty flatpak runtime
      path: a thin runtime always has its root. */
  lemma RootfsStageFails(rec: Record, wd: string, useFlatpak: bool, h: Host,
                         runtimeRoot: string, appId: string, appRoot: string)
    ensures RootfsStage(rec, wd, useFlatpak, h, runtimeRoot, appId, appRoot).0 == -1 <==>
      (useFlatpak && h.flatpakRuntimePath(appId) == "")
  {
  }

  /** The application's library directory leads the search path, ahead of
      the three runtime directories in their fixed order. */
  lemma LdLibraryPathOrder(appId: string, useFlatpak: bool)
    ensures RootfsEnv(appId, useFlatpak)[0] == "LD_LIBRARY_PATH=" + AppDir(appId, useFlatpak, "lib")
      + ":" + "/runtime/lib" + ":" + "/runtime/lib/x86_64-linux-gnu" + ":" + "/runtime/lib/i386-linux-gnu"
  {
    var d := LdLibraryDirs(appId, useFlatpak);
    assert d[1..] == ["/runtime/lib", "/runtime/lib/x86_64-linux-gnu", "/runtime/lib/i386-linux-gnu"];
    JoinWith3("/runtime/lib", "/runtime/lib/x86_64-linux-gnu", "/runtime/lib/i386-linux-gnu", ":");
  }

  /** The native application directory is the `/`-join the stages build. */
  lemma AppDirJoin(appId: string, sub: string)
    ensures AppDir(appId, false, sub) == JoinWith(["/opt/apps", appId, "files/" + sub], "/")
  {
    JoinWith3("/opt/apps", appId, "files/" + sub, "/");
  }

  // ---------------------------------------------------------------- system

  function SystemTable(): seq<(string, string)> {
    [("/dev/dri", "/dev/dri"), ("/dev/snd", "/dev/snd")]
  }

  function SystemStage(rec: Record): Record {
    rec.(mounts := rec.mounts + Binds(SystemTable(), Rbind))
  }

  /** Two read-write rbinds, /dev/dri then /dev/snd, appended and nothing else. */
  lemma SystemStageShape(rec: Record)
    ensures SystemStage(rec) == rec.(mounts := rec.mounts +
      [Mount(Bind, ["rbind"], "/dev/dri", "/dev/dri"), Mount(Bind, ["rbind"], "/dev/snd", "/dev/snd")])
  {
  }

  // ------------------------------------------------------------------ host

  function HostRoTable(): seq<(string, string)> {
    [("/etc/resolv.conf", "/run/host/network/etc/resolv.conf"),
     ("/run/resolvconf", "/run/resolvconf"),
     ("/usr/share/fonts", "/run/host/appearance/fonts"),
     ("/usr/share/locale/", "/usr/share/locale/"),
     ("/usr/lib/locale/", "/usr/lib/locale/"),
     ("/usr/share/fonts", "/usr/share/fonts"),
     ("/usr/share/themes", "/usr/share/themes"),
     ("/usr/share/icons", "/usr/share/icons"),
     ("/usr/share/zoneinfo", "/usr/share/zoneinfo"),
     ("/etc/localtime", "/run/host/etc/localtime"),
     ("/etc/machine-id", "/run/host/etc/machine-id"),
     ("/etc/machine-id", "/etc/machine-id"),
     ("/var", "/var"),
     ("/var/cache/fontconfig", "/run/host/appearance/fonts-cache")]
  }

  /** Each device bound onto its own path. */
  function DevicePairs(devices: seq<string>): seq<(string, string)> {
    seq(|devices|, i requires 0 <= i < |devices| => (devices[i], devices[i]))
  }

  function X11Table(): seq<(string, string)> {
    [("/tmp/.X11-unix", "/tmp/.X11-unix")]
  }

  function HostMounts(h: Host): seq<Mount> {
    Binds(HostRoTable() + DevicePairs(h.nvidiaDevices), RoRbind) + Binds(X11Table(), Rbind)
  }

  function HostStage(rec: Record, h: Host): Record {
    rec.(mounts := rec.mounts + HostMounts(h))
  }

  /** Fourteen read-only table entries, one read-only entry per nvidia
      device in discovery order, then the X11 socket directory read-write. */
  lemma HostMountsShape(h: Host)
    ensures |HostMounts(h)| == 15 + |h.nvidiaDevices|
    ensures HostMounts(h)[..14] == Binds(HostRoTable(), RoRbind)
    ensures forall i :: 0 <= i < 14 + |h.nvidiaDevices| ==>
      HostMounts(h)[i].kind == Bind && HostMounts(h)[i].options == ["ro", "rbind"]
    ensures forall i :: 0 <= i < |h.nvidiaDevices| ==>
      HostMounts(h)[14 + i] == Mount(Bind, RoRbind, h.nvidiaDevices[i], h.nvidiaDevices[i])
    ensures HostMounts(h)[14 + |h.nvidiaDevices|] == Mount(Bind, ["rbind"], "/tmp/.X11-unix", "/tmp/.X11-unix")
  {
  }

  // ------------------------------------------------------------------ user

  /** `/run/user/<uid>`. */
  function UserRuntimeDir(uid: nat): string {
    "/run/user/" + NatToDecimal(uid)
  }

  /** Distinct users get distinct runtime directories. */
  lemma UserRuntimeDirInjective(a: nat, b: nat)
    requires UserRuntimeDir(a) == UserRuntimeDir(b)
    ensures a == b
  {
    var p := "/run/user/";
    assert NatToDecimal(a) == UserRuntimeDir(a)[|p|..];
    assert NatToDecimal(b) == UserRuntimeDir(b)[|p|..];
    NatToDecimalInjective(a, b);
  }

  function UserRwTable(h: Host, appId: string, dir: string): seq<(string, string)> {
    (if UseDBusProxy then
       [(dir + "/user-bus", dir + "/bus"), (dir + "/system-bus", "/run/dbus/system_bus_socket")]
     else
       [(dir + "/bus", dir + "/bus"), ("/run/dbus/system_bus_socket", "/run/dbus/system_bus_socket")])
    + [(dir + "/pulse", dir + "/pulse"),
       (h.ensureUserDir([".linglong", appId, "home"]), h.userFile("")),
       (h.ensureUserDir([".linglong", appId]), h.userFile(".linglong/" + appId)),
       (h.ensureUserDir([".linglong", appId, "/config"]), h.userFile(".config")),
       (h.ensureUserDir([".linglong", appId, "/cache"]), h.userFile(".cache")),
       (dir + "/dconf", dir + "/dconf"),
       (h.userFile(".config/user-dirs.dirs"), h.userFile(".config/user-dirs.dirs"))]
  }

  function UserRoTable(h: Host): seq<(string, string)> {
    [(h.userFile(".local/share/fonts"), h.userFile(".local/share/fonts")),
     (h.userFile(".config/fontconfig"), h.userFile(".config/fontconfig")),
     (h.userFile(".local/share/fonts"), "/run/host/appearance/user-fonts"),
     (h.userFile(".cache/fontconfig"), "/run/host/appearance/user-fonts-cache"),
     (h.Getenv("XAUTHORITY"), h.Getenv("XAUTHORITY"))]
  }

  function TmpfsMount(dir: string): Mount {
    Mount(Tmpfs, TmpfsOptions, "tmpfs", dir)
  }

  function UserMounts(h: Host, appId: string): seq<Mount> {
    var dir := UserRuntimeDir(h.uid);
    [TmpfsMount(dir)] + Binds(UserRwTable(h, appId, dir), Rbind) + Binds(UserRoTable(h), RoRbind)
  }

  /** The host variables passed through to the sandbox. */
  function Whitelist(): seq<string> {
    ["DISPLAY", "LANG", "LANGUAGE", "XAUTHORITY", "XDG_SESSION_DESKTOP", "D_DISABLE_RT_SCREEN_SCALE",
     "XMODIFIERS", "DESKTOP_SESSION", "DEEPIN_WINE_SCALE", "XDG_CURRENT_DESKTOP", "XIM",
     "XDG_SESSION_TYPE", "CLUTTER_IM_MODULE", "QT4_IM_MODULE", "GTK_IM_MODULE"]
  }

  /** `NAME=value` for each name, with the host's value or empty. */
  function ForwardedEnv(h: Host, names: seq<string>): seq<string> {
    seq(|names|, i requires 0 <= i < |names| => names[i] + "=" + h.Getenv(names[i]))
  }

  const DefaultXdgDataDirs: string := "/usr/local/share:/usr/share"

  /** The six entries the user stage computes itself; `pkgAppId` names the
      package whose binary and share directories come first, `appId` the
      data home. */
  function OwnUserEnv(h: Host, pkgAppId: string, appId: string, useFlatpak: bool): seq<string> {
    var dir := UserRuntimeDir(h.uid);
    ["PATH=" + AppDir(pkgAppId, useFlatpak, "bin") + ":" + h.Getenv("PATH"),
     "HOME=" + h.userFile(""),
     "XDG_RUNTIME_DIR=" + dir,
     "DBUS_SESSION_BUS_ADDRESS=unix:path=" + h.joinPaths([dir, "bus"]),
     "XDG_DATA_DIRS=" + AppDir(pkgAppId, useFlatpak, "share") + ":/runtime/share:" + h.EnvOr("XDG_DATA_DIRS", DefaultXdgDataDirs),
     "XDG_DATA_HOME=" + h.userFile(".linglong/" + appId + "/share")]
  }

  /** The `:`-join of the data directories the user stage builds. */
  lemma DataDirsJoin(share: string, rest: string)
    ensures JoinWith([share, "/runtime/share", rest], ":") == share + ":/runtime/share:" + rest
  {
    JoinWith3(share, "/runtime/share", rest, ":");
    assert ":" + "/runtime/share" + ":" == ":/runtime/share:";
  }

  /** The user stage's environment: its own entries, then the whitelist. */
  function UserEnv(h: Host, pkgAppId: string, appId: string, useFlatpak: bool): seq<string> {
    OwnUserEnv(h, pkgAppId, appId, useFlatpak) + ForwardedEnv(h, Whitelist())
  }

  function UserStage(rec: Record, pkgAppId: string, appId: string, useFlatpak: bool, h: Host): Record {
    rec.(mounts := rec.mounts + UserMounts(h, appId),
         env := rec.env + UserEnv(h, pkgAppId, appId, useFlatpak),
         cwd := h.userFile(""),
         uidMappings := rec.uidMappings + [IdMap(h.uid, 0, 1)],
         gidMappings := rec.gidMappings + [IdMap(h.gid, 0, 1)])
  }

  /** A tmpfs at the runtime directory first, then nine read-write rbinds,
      then five read-only rbinds, the last being the XAUTHORITY file. */
  lemma UserMountsShape(h: Host, appId: string)
    ensures |UserMounts(h, appId)| == 15
    ensures UserMounts(h, appId)[0] == Mount(Tmpfs, ["nodev", "nosuid"], "tmpfs", UserRuntimeDir(h.uid))
    ensures forall i :: 1 <= i < 10 ==> UserMounts(h, appId)[i].kind == Bind && UserMounts(h, appId)[i].options == ["rbind"]
    ensures forall i :: 10 <= i < 15 ==> UserMounts(h, appId)[i].kind == Bind && UserMounts(h, appId)[i].options == ["ro", "rbind"]
    ensures UserMounts(h, appId)[14].source == h.Getenv("XAUTHORITY") == UserMounts(h, appId)[14].destination
  {
  }

  /** With XAUTHORITY unset the last user mount binds the empty path. */
  lemma XauthorityUnset(h: Host, appId: string)
    requires "XAUTHORITY" !in h.environ
    ensures UserMounts(h, appId)[14] == Mount(Bind, ["ro", "rbind"], "", "")
  {
  }

  lemma PrefixOfConcat(p: string, v: string)
    ensures IsPrefix(p, p + v)
  {
    assert (p + v)[..|p|] == p;
  }

  /** One `NAME=value` entry per name, in order; a name the host does not
      set is still forwarded, as `NAME=`. */
  lemma {:induction false} ForwardedEnvShape(h: Host, names: seq<string>)
    ensures |ForwardedEnv(h, names)| == |names|
    ensures forall k :: 0 <= k < |names| ==> IsPrefix(names[k] + "=", ForwardedEnv(h, names)[k])
    ensures forall k :: 0 <= k < |names| && names[k] !in h.environ ==> ForwardedEnv(h, names)[k] == names[k] + "="
    ensures forall k :: 0 <= k < |names| && names[k] in h.environ ==>
      ForwardedEnv(h, names)[k] == names[k] + "=" + h.environ[names[k]]
  {
    forall k | 0 <= k < |names|
      ensures IsPrefix(names[k] + "=", ForwardedEnv(h, names)[k])
    {
      PrefixOfConcat(names[k] + "=", h.Getenv(names[k]));
    }
  }

  /** The six entries the user stage sets itself, in this order: the
      binary path ahead of the host `PATH`, the home, the runtime directory,
      the session bus inside it, the data directories and the data home;
      the data directories fall back to the default only when unset. */
  lemma OwnUserEnvOrder(h: Host, pkgAppId: string, appId: string, useFlatpak: bool)
    ensures var e := OwnUserEnv(h, pkgAppId, appId, useFlatpak);
      && |e| == 6
      && IsPrefix("PATH=" + AppDir(pkgAppId, useFlatpak, "bin") + ":", e[0])
      && e[0] == "PATH=" + AppDir(pkgAppId, useFlatpak, "bin") + ":" + h.Getenv("PATH")
      && e[1] == "HOME=" + h.Home()
      && e[2] == "XDG_RUNTIME_DIR=" + UserRuntimeDir(h.uid)
      && IsPrefix("DBUS_SESSION_BUS_ADDRESS=", e[3])
      && IsPrefix("XDG_DATA_DIRS=" + AppDir(pkgAppId, useFlatpak, "share") + ":/runtime/share:", e[4])
      && IsPrefix("XDG_DATA_HOME=", e[5])
    ensures "XDG_DATA_DIRS" !in h.environ ==> (OwnUserEnv(h, pkgAppId, appId, useFlatpak)[4] ==
      "XDG_DATA_DIRS=" + AppDir(pkgAppId, useFlatpak, "share") + ":/runtime/share:" + DefaultXdgDataDirs)
    ensures "XDG_DATA_DIRS" in h.environ ==> (OwnUserEnv(h, pkgAppId, appId, useFlatpak)[4] ==
      "XDG_DATA_DIRS=" + AppDir(pkgAppId, useFlatpak, "share") + ":/runtime/share:" + h.environ["XDG_DATA_DIRS"])
  {
    var dir := UserRuntimeDir(h.uid);
    PrefixOfConcat("PATH=" + AppDir(pkgAppId, useFlatpak, "bin") + ":", h.Getenv("PATH"));
    PrefixOfConcat("DBUS_SESSION_BUS_ADDRESS=", "unix:path=" + h.joinPaths([dir, "bus"]));
    assert "DBUS_SESSION_BUS_ADDRESS=" + "unix:path=" == "DBUS_SESSION_BUS_ADDRESS=unix:path=";
    PrefixOfConcat("XDG_DATA_DIRS=" + AppDir(pkgAppId, useFlatpak, "share") + ":/runtime/share:",
                   h.EnvOr("XDG_DATA_DIRS", DefaultXdgDataDirs));
    PrefixOfConcat("XDG_DATA_HOME=", h.userFile(".linglong/" + appId + "/share"));
  }

  /** Twenty-one entries: the stage's own six, then one per whitelist name
      in list order, each starting `NAME=`, forwarded even when unset. */
  lemma {:induction false} UserEnvOrder(h: Host, pkgAppId: string, appId: string, useFlatpak: bool)
    ensures |UserEnv(h, pkgAppId, appId, useFlatpak)| == 6 + |Whitelist()|
    ensures UserEnv(h, pkgAppId, appId, useFlatpak)[..6] == OwnUserEnv(h, pkgAppId, appId, useFlatpak)
    ensures forall k :: 0 <= k < |Whitelist()| ==>
      IsPrefix(Whitelist()[k] + "=", UserEnv(h, pkgAppId, appId, useFlatpak)[6 + k])
    ensures forall k :: 0 <= k < |Whitelist()| && Whitelist()[k] !in h.environ ==>
      UserEnv(h, pkgAppId, appId, useFlatpak)[6 + k] == Whitelist()[k] + "="
    ensures forall k :: 0 <= k < |Whitelist()| && Whitelist()[k] in h.environ ==>
      UserEnv(h, pkgAppId, appId, useFlatpak)[6 + k] == Whitelist()[k] + "=" + h.environ[Whitelist()[k]]
  {
    var e := UserEnv(h, pkgAppId, appId, useFlatpak);
    var w := Whitelist();
    ForwardedEnvShape(h, w);
    assert e[6..] == ForwardedEnv(h, w);
    forall k | 0 <= k < |w|
      ensures e[6 + k] == ForwardedEnv(h, w)[k]
    {
      assert e[6 + k] == e[6..][k];
    }
  }

  /** Exactly one uid map and one gid map, both the real id onto 0, size 1. */
  lemma IdentityMaps(rec: Record, pkgAppId: string, appId: string, useFlatpak: bool, h: Host)
    requires rec.uidMappings == [] && rec.gidMappings == []
    ensures UserStage(rec, pkgAppId, appId, useFlatpak, h).uidMappings == [IdMap(h.uid, 0, 1)]
    ensures UserStage(rec, pkgAppId, appId, useFlatpak, h).gidMappings == [IdMap(h.gid, 0, 1)]
  {
  }

  // ------------------------------------------------------------ permission

  /** The `${HOME}` substitution of permission mount paths. */
  function PathPreprocess(path: string, home: string): string {
    ReplaceAll(path, HomeKey, home)
  }

  /** One `src:dst` permission string as a read-write rbind. */
  function PermissionMount(entry: string, home: string): Mount {
    var component := Split(entry, ':');
    Mount(Bind, Rbind, PathPreprocess(ValueAt(component, 0), home), PathPreprocess(ValueAt(component, 1), home))
  }

  function PermissionMounts(perms: seq<string>, home: string): seq<Mount> {
    seq(|perms|, i requires 0 <= i < |perms| => PermissionMount(perms[i], home))
  }

  /** The permission stage's additions: none without a permission object. */
  function PermissionPart(permission: Option<seq<string>>, home: string): seq<Mount> {
    if permission.None? then [] else PermissionMounts(permission.value, home)
  }

  function MountStage(rec: Record, permission: Option<seq<string>>, h: Host): Record {
    rec.(mounts := rec.mounts + PermissionPart(permission, h.Home()))
  }

  /** Nothing changes without a permission object; otherwise one rbind per
      permission string, in order, and nothing else. */
  lemma MountStageShape(rec: Record, permission: Option<seq<string>>, h: Host)
    ensures permission.None? ==> MountStage(rec, permission, h) == rec
    ensures permission.Some? ==>
      var r := MountStage(rec, permission, h);
      && r == rec.(mounts := r.mounts)
      && |r.mounts| == |rec.mounts| + |permission.value|
      && r.mounts[..|rec.mounts|] == rec.mounts
      && forall i :: 0 <= i < |permission.value| ==>
           r.mounts[|rec.mounts| + i] == PermissionMount(permission.value[i], h.Home())
           && r.mounts[|rec.mounts| + i].kind == Bind && r.mounts[|rec.mounts| + i].options == ["rbind"]
  {
  }

  /** A `src:dst[:more]` string binds the first part onto the second, each
      with the placeholder replaced; later parts are ignored. */
  lemma PermissionMountParts(parts: seq<string>, home: string)
    requires |parts| >= 2
    requires forall i :: 0 <= i < |parts| ==> ':' !in parts[i]
    ensures PermissionMount(JoinWith(parts, ":"), home) ==
      Mount(Bind, ["rbind"], PathPreprocess(parts[0], home), PathPreprocess(parts[1], home))
  {
    SplitJoin(parts, ':');
  }

  /** A string without a colon binds onto the empty destination. */
  lemma PermissionMountNoColon(entry: string, home: string)
    requires ':' !in entry
    ensures PermissionMount(entry, home) == Mount(Bind, ["rbind"], PathPreprocess(entry, home), "")
  {
    SplitNoSeparator(entry, ':');
    ReplaceAbsent("", HomeKey, home);
  }

  lemma {:induction false} NoDollarNoHome(s: string)
    requires '$' !in s
    ensures !Contains(s, HomeKey)
    decreases |s|
  {
    if s != [] {
      assert s[0] != '$';
      assert !IsPrefix(HomeKey, s);
      NoDollarNoHome(s[1..]);
    }
  }

  /** A leading placeholder becomes the home path; a path without `$` is
      kept as is. */
  lemma PathPreprocessLeadingHome(home: string, rest: string)
    requires '$' !in rest
    ensures PathPreprocess(HomeKey + rest, home) == home + rest
    ensures PathPreprocess(rest, home) == rest
  {
    assert [] + HomeKey[..|HomeKey| - 1] == HomeKey[..|HomeKey| - 1];
    ContainsShorter(HomeKey[..|HomeKey| - 1], HomeKey);
    ReplaceFirst([], HomeKey, home, rest);
    assert [] + HomeKey + rest == HomeKey + rest;
    NoDollarNoHome(rest);
    ReplaceAbsent(rest, HomeKey, home);
  }

  // ------------------------------------------------------- command line

  /** A desktop-entry field code: `%` and one word character, the whole token. */
  predicate IsFieldCode(t: string) {
    |t| == 2 && t[0] == '%' && IsWordChar(t[1])
  }

  /** `QStringList::indexOf` for the field-code pattern: the first matching
      token, or -1. */
  function IndexOfFieldCode(args: seq<string>): (k: int)
    ensures -1 <= k < |args|
    ensures k >= 0 ==> IsFieldCode(args[k]) && forall j :: 0 <= j < k ==> !IsFieldCode(args[j])
    ensures k == -1 ==> forall j :: 0 <= j < |args| ==> !IsFieldCode(args[j])
    decreases |args|
  {
    if args == [] then -1
    else if IsFieldCode(args[0]) then 0
    else
      var k := IndexOfFieldCode(args[1..]);
      if k == -1 then -1 else k + 1
  }

  /** `removeAt`. */
  function RemoveAt(s: seq<string>, i: nat): seq<string>
    requires i < |s|
  {
    s[..i] + s[i + 1..]
  }

  function StripFieldCode(args: seq<string>): seq<string> {
    var k := IndexOfFieldCode(args);
    if k == -1 then args else RemoveAt(args, k)
  }

  /** Exactly the first field code is removed; the other tokens keep
      their order. */
  lemma StripFirstFieldCode(args: seq<string>, k: nat)
    requires k < |args| && IsFieldCode(args[k])
    requires forall j :: 0 <= j < k ==> !IsFieldCode(args[j])
    ensures StripFieldCode(args) == args[..k] + args[k + 1..]
  {
  }

  /** Without a field code the tokens are unchanged. */
  lemma StripNoFieldCode(args: seq<string>)
    requires forall j :: 0 <= j < |args| ==> !IsFieldCode(args[j])
    ensures StripFieldCode(args) == args
  {
  }

  /** The template args if any, else the override, else the entry's `Exec`,
      with its first field code removed. */
  function CommandLine(templateArgs: seq<string>, desktopExec: string, entryExec: string,
                       parseExec: string -> seq<string>): seq<string>
  {
    StripFieldCode(if templateArgs != [] then templateArgs
                   else if desktopExec != "" then parseExec(desktopExec)
                   else parseExec(entryExec))
  }

  /** `Exec=app %f --flag` without override yields `app --flag`. */
  lemma CommandLineExample(parseExec: string -> seq<string>)
    requires parseExec("app %f --flag") == ["app", "%f", "--flag"]
    ensures CommandLine([], "", "app %f --flag", parseExec) == ["app", "--flag"]
  {
    assert !IsFieldCode("app");
    assert IsFieldCode("%f");
    assert ["app", "%f", "--flag"][1..] == ["%f", "--flag"];
  }

  /** Of several field codes only the first goes: a later one at `j`
      survives, moved one place forward. */
  lemma StripOnlyFirst(args: seq<string>, i: nat, j: nat)
    requires i < j < |args| && IsFieldCode(args[i]) && IsFieldCode(args[j])
    requires forall k :: 0 <= k < i ==> !IsFieldCode(args[k])
    ensures |StripFieldCode(args)| == |args| - 1
    ensures StripFieldCode(args)[j - 1] == args[j]
    ensures IsFieldCode(StripFieldCode(args)[j - 1])
  {
    StripFirstFieldCode(args, i);
  }

  // -------------------------------------------------------------- prepare

  /** The runtime's `files` directory when it exists, else the root. */
  function FixRuntimePath(h: Host, runtimeRoot: string): string {
    if h.dirExists(runtimeRoot + "/files") then runtimeRoot + "/files" else runtimeRoot
  }

  function EnvFileMount(wd: string): Mount {
    Mount(Bind, Rbind, wd + "/env", EnvFileDestination)
  }

  function ApplicationsDir(appRoot: string): string {
    JoinWith([appRoot, "entries", "applications"], "/")
  }

  /** `QDir::absoluteFilePath`: an absolute name stays, a relative one is
      taken inside the directory. */
  function AbsoluteFilePath(dir: string, name: string): string {
    if |name| > 0 && name[0] == '/' then name else dir + "/" + name
  }

  function DesktopFileList(l: Launch, h: Host): seq<string> {
    if l.useFlatpakRuntime then h.flatpakDesktopFiles(l.appId)
    else h.desktopFiles(ApplicationsDir(l.appRoot))
  }

  /** The record after every stage and the env-file mount, before the
      command is resolved. The rootfs status is not consulted. */
  function Staged(rec: Record, l: Launch, h: Host): Record {
    var r1 := RootfsStage(rec, l.workingDirectory, l.useFlatpakRuntime, h,
                          FixRuntimePath(h, l.runtimeRoot), l.appId, l.appRoot).1;
    var r5 := MountStage(UserStage(HostStage(SystemStage(r1), h), l.appId, l.appId, l.useFlatpakRuntime, h),
                         l.permission, h);
    r5.(mounts := r5.mounts + [EnvFileMount(l.workingDirectory)])
  }

  /** `prepare`: status and the finished record. */
  function PrepareSpec(rec: Record, l: Launch, h: Host): (int, Record) {
    var r := Staged(rec, l, h);
    var files := DesktopFileList(l, h);
    if |files| == 0 then (-1, r)
    else
      var entryExec := h.rawExec(AbsoluteFilePath(ApplicationsDir(l.appRoot), files[0]));
      (0, r.(args := CommandLine(r.args, l.desktopExec, entryExec, h.parseExec)))
  }

  /** The stages leave the command line and the root path alone. */
  lemma StagedKeeps(rec: Record, l: Launch, h: Host)
    ensures Staged(rec, l, h).args == rec.args
    ensures Staged(rec, l, h).rootPath == rec.rootPath
  {
    var r1 := RootfsStage(rec, l.workingDirectory, l.useFlatpakRuntime, h,
                          FixRuntimePath(h, l.runtimeRoot), l.appId, l.appRoot).1;
    RootfsStageShape(rec, l.workingDirectory, l.useFlatpakRuntime, h, FixRuntimePath(h, l.runtimeRoot), l.appId, l.appRoot);
    assert r1.args == rec.args && r1.rootPath == rec.rootPath;
  }

  /** No desktop file gives -1 with the template args untouched; otherwise
      0 and the resolved command line. */
  lemma PrepareStatus(rec: Record, l: Launch, h: Host)
    ensures PrepareSpec(rec, l, h).0 == -1 <==> DesktopFileList(l, h) == []
    ensures PrepareSpec(rec, l, h).0 == 0 <==> DesktopFileList(l, h) != []
    ensures DesktopFileList(l, h) == [] ==> PrepareSpec(rec, l, h).1.args == rec.args
    ensures DesktopFileList(l, h) != [] ==> (PrepareSpec(rec, l, h).1.args ==
      CommandLine(rec.args, l.desktopExec,
                  h.rawExec(AbsoluteFilePath(ApplicationsDir(l.appRoot), DesktopFileList(l, h)[0])), h.parseExec))
  {
    StagedKeeps(rec, l, h);
  }

  /** The top-level list after `prepare`: the template mounts, then the
      system, host, user, permission mounts, then the env file, whatever the
      rootfs stage returned. */
  lemma PrepareMounts(rec: Record, l: Launch, h: Host)
    ensures PrepareSpec(rec, l, h).1.mounts ==
      rec.mounts + Binds(SystemTable(), Rbind) + HostMounts(h) + UserMounts(h, l.appId)
      + PermissionPart(l.permission, h.Home()) + [EnvFileMount(l.workingDirectory)]
  {
  }

  /** The environment after `prepare`: the template entries, the three
      library entries when the rootfs stage succeeded, then the user
      stage's entries; nothing is removed. */
  lemma PrepareEnv(rec: Record, l: Launch, h: Host)
    ensures var st := RootfsStage(rec, l.workingDirectory, l.useFlatpakRuntime, h,
                                  FixRuntimePath(h, l.runtimeRoot), l.appId, l.appRoot).0;
      PrepareSpec(rec, l, h).1.env ==
        rec.env + (if st == 0 then RootfsEnv(l.appId, l.useFlatpakRuntime) else [])
        + UserEnv(h, l.appId, l.appId, l.useFlatpakRuntime)
  {
  }

  /** The identity maps and working directory after `prepare`. */
  lemma PrepareIdentity(rec: Record, l: Launch, h: Host)
    ensures PrepareSpec(rec, l, h).1.uidMappings == rec.uidMappings + [IdMap(h.uid, 0, 1)]
    ensures PrepareSpec(rec, l, h).1.gidMappings == rec.gidMappings + [IdMap(h.gid, 0, 1)]
    ensures PrepareSpec(rec, l, h).1.cwd == h.Home()
    ensures PrepareSpec(rec, l, h).1.rootPath == rec.rootPath
  {
    var r1 := RootfsStage(rec, l.workingDirectory, l.useFlatpakRuntime, h,
                          FixRuntimePath(h, l.runtimeRoot), l.appId, l.appRoot).1;
    RootfsStageShape(rec, l.workingDirectory, l.useFlatpakRuntime, h, FixRuntimePath(h, l.runtimeRoot), l.appId, l.appRoot);
    assert r1.uidMappings == rec.uidMappings && r1.gidMappings == rec.gidMappings && r1.rootPath == rec.rootPath;
    var r4 := UserStage(HostStage(SystemStage(r1), h), l.appId, l.appId, l.useFlatpakRuntime, h);
    assert r4.uidMappings == rec.uidMappings + [IdMap(h.uid, 0, 1)];
    assert r4.gidMappings == rec.gidMappings + [IdMap(h.gid, 0, 1)];
    assert r4.cwd == h.Home() && r4.rootPath == rec.rootPath;
  }
}
