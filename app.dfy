/** The private half of an application instance: it owns the runtime
    record and fills it stage by stage, in place, the way the launcher
    does before handing the record to the box. Each stage is proved to
    leave the record exactly as the matching pure stage function says. */
module App {
  import opened Strings
  import opened RuntimeSpec
  import opened Inputs
  import opened LaunchPlan

  class AppPrivate {
    /** Flatpak mode, command override, container and layer paths. */
    const launch: Launch
    /** The process environment and the helpers outside this model. */
    const host: Host
    /** The runtime record under construction. */
    const r: Runtime

    constructor (launch: Launch, host: Host, skeleton: Record)
      ensures this.launch == launch && this.host == host
      ensures fresh(r) && r.Value() == skeleton
    {
      this.launch := launch;
      this.host := host;
      r := new Runtime(skeleton);
    }

    /** Two read-write device binds on the top-level list. */
    method StageSystem() returns (status: int)
      modifies r
      ensures status == 0
      ensures r.Value() == SystemStage(old(r.Value()))
    {
      var mountMap := [("/dev/dri", "/dev/dri"), ("/dev/snd", "/dev/snd")];
      r.PushBinds(mountMap, Rbind);
      return 0;
    }

    /** Picks fuse overlay or native rootfs, builds the layer list and
        fills the chosen variant, then adds the library environment. A full
        runtime without a root path stops the stage with -1, after the
        empty variant is in place. */
    method StageRootfs(runtimeId: string, runtimeRootPath: string, appId: string, appRootPath: string)
      returns (status: int)
      modifies r
      ensures (status, r.Value()) ==
        RootfsStage(old(r.Value()), launch.workingDirectory, launch.useFlatpakRuntime, host,
                    runtimeRootPath, appId, appRootPath)
    {
      var useThinRuntime := true;
      var fuseMount := false;
      if Contains(runtimeRootPath, WineMarker) {
        fuseMount := true;
      }
      if launch.useFlatpakRuntime {
        fuseMount := false;
        useThinRuntime := false;
      }
      assert Strategy(fuseMount, useThinRuntime) == SelectStrategy(runtimeRootPath, launch.useFlatpakRuntime);

      var wd := launch.workingDirectory;
      if fuseMount {
        r.annotations := Some(Annotations(wd, Some(OverlayfsRootfs(
          JoinWith([wd, ".overlayfs", "lower_parent"], "/"),
          JoinWith([wd, ".overlayfs", "upper"], "/"),
          JoinWith([wd, ".overlayfs", "workdir"], "/"), [])), None));
      } else {
        r.annotations := Some(Annotations(wd, None, Some(NativeRootfs([]))));
      }

      var mountMap := RootfsMountMap(fuseMount, useThinRuntime, runtimeRootPath, appId, appRootPath);
      if mountMap.None? {
        return -1;
      }
      FillRootfs(Strategy(fuseMount, useThinRuntime), mountMap.value);
      PushRootfsEnv(appId);
      return 0;
    }

    /** The rootfs `source -> destination` list of a strategy, or None when
        a full runtime has no root path. */
    method RootfsMountMap(fuseMount: bool, useThinRuntime: bool, runtimeRootPath: string, appId: string,
                          appRootPath: string) returns (mountMap: Option<seq<(string, string)>>)
      ensures mountMap == RootfsTable(Strategy(fuseMount, useThinRuntime), launch.useFlatpakRuntime, host,
                                      runtimeRootPath, appId, appRootPath)
    {
      ghost var s := Strategy(fuseMount, useThinRuntime);
      var runtimeRoot := runtimeRootPath;
      var table: seq<(string, string)> := [];
      if useThinRuntime {
        table := [("/usr", "/usr"), ("/etc", "/etc"), (runtimeRoot + "/usr", "/runtime")];
        if fuseMount {
          // the runtime's /usr goes in front of the host's
          table := [(runtimeRoot + "/usr", "/usr")] + table;
          table := table + [(runtimeRoot + "/opt/deepinwine", "/opt/deepinwine")];
          table := table + [(runtimeRoot + "/opt/deepin-wine6-stable", "/opt/deepin-wine6-stable")];
          assert table == [(runtimeRoot + "/usr", "/usr")] + ThinBase(runtimeRoot) + WineExtras(runtimeRoot);
        } else {
          assert table == [] + ThinBase(runtimeRoot) + [];
        }
      } else {
        if launch.useFlatpakRuntime {
          runtimeRoot := host.flatpakRuntimePath(appId);
        }
        if runtimeRoot == "" {
          return None;
        }
        table := table + [(runtimeRoot, "/usr")];
        assert table == [(runtimeRoot, "/usr")];
      }
      assert Some(table) == RuntimeLayerTable(s, launch.useFlatpakRuntime, host, runtimeRootPath, appId);
      ghost var runtimePart := table;

      if launch.useFlatpakRuntime {
        var appRoot := host.flatpakAppPath(appId);
        table := table + [(appRoot, "/app")];
      } else {
        table := table + [(appRootPath, "/opt/apps/" + appId)];
        JoinWith2(appRootPath, "files/lib", "/");
        assert "/" + "files/lib" == "/files/lib";
        assert JoinWith([appRootPath, "files/lib"], "/") == appRootPath + "/files/lib";
        table := table + [(JoinWith([appRootPath, "files/lib"], "/"), "/run/app/lib")];
        assert table == runtimePart + [(appRootPath, "/opt/apps/" + appId), (appRootPath + "/files/lib", "/run/app/lib")];
      }
      assert table == runtimePart + AppLayerTable(launch.useFlatpakRuntime, host, appId, appRootPath);
      return Some(table);
    }

    /** Appends one read-only rbind per table entry to the populated rootfs
        variant. */
    method FillRootfs(s: Strategy, mountMap: seq<(string, string)>)
      requires r.annotations == Some(RootfsAnnotations(s, launch.workingDirectory, []))
      modifies r
      ensures r.Value() == old(r.Value()).(annotations :=
        Some(RootfsAnnotations(s, launch.workingDirectory, Binds(mountMap, RoRbind))))
    {
      var wd := launch.workingDirectory;
      assert Binds(mountMap[..0], RoRbind) == [];
      for i := 0 to |mountMap|
        invariant r.Value() == old(r.Value()).(annotations := Some(RootfsAnnotations(s, wd, Binds(mountMap[..i], RoRbind))))
      {
        var m := Mount(Bind, RoRbind, mountMap[i].0, mountMap[i].1);
        ghost var ms := Binds(mountMap[..i], RoRbind);
        assert mountMap[..i + 1] == mountMap[..i] + [mountMap[i]];
        BindsAppend(mountMap[..i], [mountMap[i]], RoRbind);
        assert Binds([mountMap[i]], RoRbind) == [m];
        assert Binds(mountMap[..i + 1], RoRbind) == ms + [m];
        var a := r.annotations.value;
        assert a == RootfsAnnotations(s, wd, ms);
        if s.fuse {
          var o := a.overlayfs.value;
          r.annotations := Some(a.(overlayfs := Some(o.(mounts := o.mounts + [m]))));
        } else {
          var n := a.native.value;
          r.annotations := Some(a.(native := Some(n.(mounts := n.mounts + [m]))));
        }
        assert r.annotations.value == RootfsAnnotations(s, wd, ms + [m]);
      }
      assert mountMap[..|mountMap|] == mountMap;
    }

    /** The library search path and the two Qt plugin paths. */
    method PushRootfsEnv(appId: string)
      modifies r
      ensures r.Value() == old(r.Value()).(env := old(r.env) + RootfsEnv(appId, launch.useFlatpakRuntime))
    {
      var appLdLibraryPath := JoinWith(["/opt/apps", appId, "files/lib"], "/");
      if launch.useFlatpakRuntime {
        appLdLibraryPath := "/app/lib";
        assert "/app/" + "lib" == "/app/lib";
      } else {
        AppDirJoin(appId, "lib");
        assert "files/" + "lib" == "files/lib";
      }
      var fixLdLibraryPath := [appLdLibraryPath, "/runtime/lib", "/runtime/lib/x86_64-linux-gnu",
                               "/runtime/lib/i386-linux-gnu"];
      assert fixLdLibraryPath == LdLibraryDirs(appId, launch.useFlatpakRuntime);
      r.env := r.env + ["LD_LIBRARY_PATH=" + JoinWith(fixLdLibraryPath, ":")];
      r.env := r.env + ["QT_PLUGIN_PATH=/usr/lib/plugins:/runtime/plugins"];
      r.env := r.env + ["QT_QPA_PLATFORM_PLUGIN_PATH=/usr/lib/plugins/platforms:/runtime/plugins/platforms"];
    }

    /** Fourteen read-only host paths and every nvidia device read-only,
        then the X11 socket directory read-write. */
    method StageHost() returns (status: int)
      modifies r
      ensures status == 0
      ensures r.Value() == HostStage(old(r.Value()), host)
    {
      var roMountMap := HostRoTable();
      var devices := host.nvidiaDevices;
      for i := 0 to |devices|
        invariant roMountMap == HostRoTable() + DevicePairs(devices[..i])
      {
        assert DevicePairs(devices[..i + 1]) == DevicePairs(devices[..i]) + [(devices[i], devices[i])];
        roMountMap := roMountMap + [(devices[i], devices[i])];
      }
      assert devices[..|devices|] == devices;
      r.PushBinds(roMountMap, RoRbind);
      var mountMap := [("/tmp/.X11-unix", "/tmp/.X11-unix")];
      r.PushBinds(mountMap, Rbind);
      return 0;
    }

    /** The per-user mounts, the environment, the working directory and the
        identity maps; `appId` names the data directories, the package id
        of the launch the binary and share directories. */
    method StageUser(appId: string) returns (status: int)
      modifies r
      ensures status == 0
      ensures r.Value() == UserStage(old(r.Value()), launch.appId, appId, launch.useFlatpakRuntime, host)
    {
      var userRuntimeDir := "/run/user/" + NatToDecimal(host.uid);
      PushUserMounts(appId, userRuntimeDir);
      PushUserEnv(appId, userRuntimeDir);
      r.cwd := host.userFile("");
      PushIdMaps();
      return 0;
    }

    /** A tmpfs over the runtime directory, the read-write table, then the
        read-only table. */
    method PushUserMounts(appId: string, userRuntimeDir: string)
      requires userRuntimeDir == UserRuntimeDir(host.uid)
      modifies r
      ensures r.Value() == old(r.Value()).(mounts := old(r.mounts) + UserMounts(host, appId))
    {
      r.mounts := r.mounts + [Mount(Tmpfs, TmpfsOptions, "tmpfs", userRuntimeDir)];

      var mountMap: seq<(string, string)> := [];
      if UseDBusProxy {
        mountMap := mountMap + [(userRuntimeDir + "/user-bus", userRuntimeDir + "/bus")];
        mountMap := mountMap + [(userRuntimeDir + "/system-bus", "/run/dbus/system_bus_socket")];
      } else {
        mountMap := mountMap + [(userRuntimeDir + "/bus", userRuntimeDir + "/bus")];
        mountMap := mountMap + [("/run/dbus/system_bus_socket", "/run/dbus/system_bus_socket")];
      }
      mountMap := mountMap + [(userRuntimeDir + "/pulse", userRuntimeDir + "/pulse")];
      var hostAppHome := host.ensureUserDir([".linglong", appId, "home"]);
      mountMap := mountMap + [(hostAppHome, host.userFile(""))];
      var appLinglongPath := host.ensureUserDir([".linglong", appId]);
      mountMap := mountMap + [(appLinglongPath, host.userFile(".linglong/" + appId))];
      var appConfigPath := host.ensureUserDir([".linglong", appId, "/config"]);
      mountMap := mountMap + [(appConfigPath, host.userFile(".config"))];
      var appCachePath := host.ensureUserDir([".linglong", appId, "/cache"]);
      mountMap := mountMap + [(appCachePath, host.userFile(".cache"))];
      mountMap := mountMap + [(userRuntimeDir + "/dconf", userRuntimeDir + "/dconf")];
      mountMap := mountMap + [(host.userFile(".config/user-dirs.dirs"), host.userFile(".config/user-dirs.dirs"))];
      assert mountMap == UserRwTable(host, appId, userRuntimeDir);
      r.PushBinds(mountMap, Rbind);

      var roMountMap: seq<(string, string)> := [];
      roMountMap := roMountMap + [(host.userFile(".local/share/fonts"), host.userFile(".local/share/fonts"))];
      roMountMap := roMountMap + [(host.userFile(".config/fontconfig"), host.userFile(".config/fontconfig"))];
      roMountMap := roMountMap + [(host.userFile(".local/share/fonts"), "/run/host/appearance/user-fonts")];
      roMountMap := roMountMap + [(host.userFile(".cache/fontconfig"), "/run/host/appearance/user-fonts-cache")];
      var xauthority := host.Getenv("XAUTHORITY");
      roMountMap := roMountMap + [(xauthority, xauthority)];
      assert roMountMap == UserRoTable(host);
      r.PushBinds(roMountMap, RoRbind);
    }

    /** The six entries the stage computes, then every whitelisted host
        variable as `NAME=value`. */
    method PushUserEnv(appId: string, userRuntimeDir: string)
      requires userRuntimeDir == UserRuntimeDir(host.uid)
      modifies r
      ensures r.Value() == old(r.Value()).(env := old(r.env) + UserEnv(host, launch.appId, appId, launch.useFlatpakRuntime))
    {
      PushOwnUserEnv(appId, userRuntimeDir);
      var envList := Whitelist();
      ForwardEnv(envList);
    }

    /** `NAME=value` for each name in order, empty when the host does not
        set it. */
    method ForwardEnv(envList: seq<string>)
      modifies r
      ensures r.Value() == old(r.Value()).(env := old(r.env) + ForwardedEnv(host, envList))
    {
      for i := 0 to |envList|
        invariant r.Value() == old(r.Value()).(env := old(r.env) + ForwardedEnv(host, envList[..i]))
      {
        assert ForwardedEnv(host, envList[..i + 1]) ==
          ForwardedEnv(host, envList[..i]) + [envList[i] + "=" + host.Getenv(envList[i])];
        r.env := r.env + [envList[i] + "=" + host.Getenv(envList[i])];
      }
      assert envList[..|envList|] == envList;
    }

    /** `PATH`, `HOME`, `XDG_RUNTIME_DIR`, the session bus address,
        `XDG_DATA_DIRS` and `XDG_DATA_HOME`. */
    method PushOwnUserEnv(appId: string, userRuntimeDir: string)
      requires userRuntimeDir == UserRuntimeDir(host.uid)
      modifies r
      ensures r.Value() == old(r.Value()).(env := old(r.env) + OwnUserEnv(host, launch.appId, appId, launch.useFlatpakRuntime))
    {
      var appBinaryPath := JoinWith(["/opt/apps", launch.appId, "files/bin"], "/");
      if launch.useFlatpakRuntime {
        appBinaryPath := "/app/bin";
        assert "/app/" + "bin" == "/app/bin";
      } else {
        AppDirJoin(launch.appId, "bin");
        assert "files/" + "bin" == "files/bin";
      }
      assert appBinaryPath == AppDir(launch.appId, launch.useFlatpakRuntime, "bin");
      var appSharePath := JoinWith(["/opt/apps", launch.appId, "files/share"], "/");
      if launch.useFlatpakRuntime {
        appSharePath := "/app/share";
        assert "/app/" + "share" == "/app/share";
      } else {
        AppDirJoin(launch.appId, "share");
        assert "files/" + "share" == "files/share";
      }
      assert appSharePath == AppDir(launch.appId, launch.useFlatpakRuntime, "share");
      PushOwnEntries(appId, userRuntimeDir, appBinaryPath, appSharePath);
    }

    /** The six pushes, once the binary and share directories are known. */
    method PushOwnEntries(appId: string, userRuntimeDir: string, appBinaryPath: string, appSharePath: string)
      requires userRuntimeDir == UserRuntimeDir(host.uid)
      requires appBinaryPath == AppDir(launch.appId, launch.useFlatpakRuntime, "bin")
      requires appSharePath == AppDir(launch.appId, launch.useFlatpakRuntime, "share")
      modifies r
      ensures r.Value() == old(r.Value()).(env := old(r.env) + OwnUserEnv(host, launch.appId, appId, launch.useFlatpakRuntime))
    {
      var env := r.env;
      var path := "PATH=" + appBinaryPath + ":" + host.Getenv("PATH");
      env := env + [path];
      var home := "HOME=" + host.userFile("");
      env := env + [home];
      var runtimeDir := "XDG_RUNTIME_DIR=" + userRuntimeDir;
      env := env + [runtimeDir];
      var bus := "DBUS_SESSION_BUS_ADDRESS=unix:path=" + host.joinPaths([userRuntimeDir, "bus"]);
      env := env + [bus];
      var xdgDataDirs := [appSharePath, "/runtime/share"];
      xdgDataDirs := xdgDataDirs + [host.EnvOr("XDG_DATA_DIRS", DefaultXdgDataDirs)];
      DataDirsJoin(appSharePath, host.EnvOr("XDG_DATA_DIRS", DefaultXdgDataDirs));
      assert xdgDataDirs == [appSharePath, "/runtime/share", host.EnvOr("XDG_DATA_DIRS", DefaultXdgDataDirs)];
      var dataDirs := "XDG_DATA_DIRS=" + JoinWith(xdgDataDirs, ":");
      assert dataDirs == "XDG_DATA_DIRS=" + appSharePath + ":/runtime/share:" + host.EnvOr("XDG_DATA_DIRS", DefaultXdgDataDirs);
      env := env + [dataDirs];
      var dataHome := "XDG_DATA_HOME=" + host.userFile(".linglong/" + appId + "/share");
      env := env + [dataHome];
      assert env == old(r.env) + [path, home, runtimeDir, bus, dataDirs, dataHome];
      ghost var own := OwnUserEnv(host, launch.appId, appId, launch.useFlatpakRuntime);
      assert own[0] == path && own[1] == home && own[2] == runtimeDir;
      assert own[3] == bus && own[4] == dataDirs && own[5] == dataHome;
      assert own == [path, home, runtimeDir, bus, dataDirs, dataHome];
      r.env := env;
    }

    /** The single uid map and the single gid map, each real id onto 0. */
    method PushIdMaps()
      modifies r
      ensures r.Value() == old(r.Value()).(uidMappings := old(r.uidMappings) + [IdMap(host.uid, 0, 1)],
                                           gidMappings := old(r.gidMappings) + [IdMap(host.gid, 0, 1)])
    {
      var uidMaps := [(host.uid, 0, 1)];
      for i := 0 to |uidMaps|
        invariant r.Value() == old(r.Value()).(uidMappings := old(r.uidMappings) +
          seq(i, k requires 0 <= k < i => IdMap(uidMaps[k].0, uidMaps[k].1, uidMaps[k].2)))
      {
        r.uidMappings := r.uidMappings + [IdMap(uidMaps[i].0, uidMaps[i].1, uidMaps[i].2)];
      }
      ghost var afterUid := r.Value();
      var gidMaps := [(host.gid, 0, 1)];
      for i := 0 to |gidMaps|
        invariant r.Value() == afterUid.(gidMappings := old(r.gidMappings) +
          seq(i, k requires 0 <= k < i => IdMap(gidMaps[k].0, gidMaps[k].1, gidMaps[k].2)))
      {
        r.gidMappings := r.gidMappings + [IdMap(gidMaps[i].0, gidMaps[i].1, gidMaps[i].2)];
      }
    }

    /** One read-write bind per permission mount string, source and
        destination split at `:` with the home placeholder replaced; no
        permission object, no change. */
    method StageMount() returns (status: int)
      modifies r
      ensures status == 0
      ensures r.Value() == MountStage(old(r.Value()), launch.permission, host)
    {
      if launch.permission.None? {
        return 0;
      }
      // the replacement map has the one key `${HOME}`
      var home := host.userFile("");
      var perms := launch.permission.value;
      for i := 0 to |perms|
        invariant r.Value() == old(r.Value()).(mounts := old(r.mounts) + PermissionMounts(perms[..i], home))
      {
        var component := Split(perms[i], ':');
        var m := Mount(Bind, Rbind, PathPreprocess(ValueAt(component, 0), home), PathPreprocess(ValueAt(component, 1), home));
        assert PermissionMounts(perms[..i + 1], home) == PermissionMounts(perms[..i], home) + [m];
        r.mounts := r.mounts + [m];
      }
      assert perms[..|perms|] == perms;
      return 0;
    }

    /** Runs every stage in order, mounts the environment file, finds the
        desktop entry and settles the command line. -1 when the
        application ships no desktop file; the status of the rootfs stage
        is not consulted. */
    method Prepare() returns (status: int)
      modifies r
      ensures (status, r.Value()) == PrepareSpec(old(r.Value()), launch, host)
    {
      RunStages();
      assert r.Value() == Staged(old(r.Value()), launch, host);

      var applicationsDir := JoinWith([launch.appRoot, "entries", "applications"], "/");
      var desktopFilenameList := host.desktopFiles(applicationsDir);
      if launch.useFlatpakRuntime {
        desktopFilenameList := host.flatpakDesktopFiles(launch.appId);
      }
      if |desktopFilenameList| <= 0 {
        return -1;
      }
      var entryPath := AbsoluteFilePath(applicationsDir, ValueAt(desktopFilenameList, 0));
      ResolveArgs(entryPath);
      return 0;
    }

    /** The five stages in order, the rootfs status dropped, then the bind
        of the environment file. */
    method RunStages()
      modifies r
      ensures r.Value() == Staged(old(r.Value()), launch, host)
    {
      var runtimeRootPath := launch.runtimeRoot;
      var fixRuntimePath := runtimeRootPath + "/files";
      if !host.dirExists(fixRuntimePath) {
        fixRuntimePath := runtimeRootPath;
      }
      var appRootPath := launch.appRoot;
      assert fixRuntimePath == FixRuntimePath(host, launch.runtimeRoot);

      var _ := StageRootfs(launch.runtimeId, fixRuntimePath, launch.appId, appRootPath);
      ghost var r1 := r.Value();
      var _ := StageSystem();
      var _ := StageHost();
      var _ := StageUser(launch.appId);
      var _ := StageMount();
      ghost var r5 := r.Value();
      assert r5 == MountStage(UserStage(HostStage(SystemStage(r1), host), launch.appId, launch.appId,
                                        launch.useFlatpakRuntime, host), launch.permission, host);

      var envFilepath := launch.workingDirectory + "/env";
      r.mounts := r.mounts + [Mount(Bind, Rbind, envFilepath, EnvFileDestination)];
    }

    /** Template args win; otherwise the override, otherwise the entry's
        `Exec` value; then the first field code goes. */
    method ResolveArgs(entryPath: string)
      modifies r
      ensures r.Value() == old(r.Value()).(args :=
        CommandLine(old(r.args), launch.desktopExec, host.rawExec(entryPath), host.parseExec))
    {
      if r.args == [] && launch.desktopExec != "" {
        r.args := host.parseExec(launch.desktopExec);
      } else if r.args == [] {
        r.args := host.parseExec(host.rawExec(entryPath));
      }
      var indexNum := IndexOfFieldCode(r.args);
      if indexNum != -1 {
        r.args := RemoveAt(r.args, indexNum);
      }
    }

    /** The part of `start` that shapes the record: the root path under the
        container directory, then `prepare`, whose status is dropped. */
    method Start()
      modifies r
      ensures r.Value() ==
        PrepareSpec(old(r.Value()).(rootPath := launch.workingDirectory + "/root"), launch, host).1
    {
      r.rootPath := launch.workingDirectory + "/root";
      var _ := Prepare();
    }
  }
}
