/** The runtime specification handed to the box launcher: mounts, process
    (args, env, cwd), uid/gid maps, and the rootfs annotation whose variant
    (overlayfs or native) holds the mounts that compose the root filesystem.
    Child objects of the original are value-typed records held in sequences. */
module RuntimeSpec {

  datatype Option<+T> = None | Some(value: T)

  datatype MountType = Bind | Tmpfs

  /** One mount; `options` keeps the order of the option list. */
  datatype Mount = Mount(kind: MountType, options: seq<string>, source: string, destination: string)

  datatype IdMap = IdMap(hostId: nat, containerId: nat, size: nat)

  /** Fuse-overlay rootfs: scratch directories plus the mounts of the base. */
  datatype OverlayfsRootfs = OverlayfsRootfs(lowerParent: string, upper: string, workdir: string, mounts: seq<Mount>)

  datatype NativeRootfs = NativeRootfs(mounts: seq<Mount>)

  datatype Annotations = Annotations(containerRootPath: string, overlayfs: Option<OverlayfsRootfs>, native: Option<NativeRootfs>)
  {
    /** Exactly one rootfs variant is populated. */
    predicate OneVariant() {
      overlayfs.Some? != native.Some?
    }
  }

  /** The whole value of a `Runtime` at one moment. */
  datatype Record = Record(
    rootPath: string,
    mounts: seq<Mount>,
    annotations: Option<Annotations>,
    args: seq<string>,
    env: seq<string>,
    cwd: string,
    uidMappings: seq<IdMap>,
    gidMappings: seq<IdMap>)

  const Rbind: seq<string> := ["rbind"]
  const RoRbind: seq<string> := ["ro", "rbind"]
  const TmpfsOptions: seq<string> := ["nodev", "nosuid"]

  /** The bind mounts a `source -> destination` table produces, in table order. */
  function Binds(table: seq<(string, string)>, options: seq<string>): seq<Mount> {
    seq(|table|, i requires 0 <= i < |table| => Mount(Bind, options, table[i].0, table[i].1))
  }

  lemma BindsAppend(a: seq<(string, string)>, b: seq<(string, string)>, options: seq<string>)
    ensures Binds(a + b, options) == Binds(a, options) + Binds(b, options)
  {
  }

  /** The record being filled by the staging pipeline. */
  class Runtime {
    var rootPath: string
    var mounts: seq<Mount>
    var annotations: Option<Annotations>
    var args: seq<string>
    var env: seq<string>
    var cwd: string
    var uidMappings: seq<IdMap>
    var gidMappings: seq<IdMap>

    function Value(): Record
      reads this
    {
      Record(rootPath, mounts, annotations, args, env, cwd, uidMappings, gidMappings)
    }

    /** Built from the template skeleton. */
    constructor (skeleton: Record)
      ensures Value() == skeleton
    {
      rootPath := skeleton.rootPath;
      mounts := skeleton.mounts;
      annotations := skeleton.annotations;
      args := skeleton.args;
      env := skeleton.env;
      cwd := skeleton.cwd;
      uidMappings := skeleton.uidMappings;
      gidMappings := skeleton.gidMappings;
    }

    /** Appends one bind mount per table entry, in order, to the top-level list. */
    method PushBinds(table: seq<(string, string)>, options: seq<string>)
      modifies this
      ensures Value() == old(Value()).(mounts := old(mounts) + Binds(table, options))
    {
      for i := 0 to |table|
        invariant Value() == old(Value()).(mounts := old(mounts) + Binds(table[..i], options))
      {
        assert table[..i + 1] == table[..i] + [table[i]];
        BindsAppend(table[..i], [table[i]], options);
        mounts := mounts + [Mount(Bind, options, table[i].0, table[i].1)];
      }
      assert table[..|table|] == table;
    }
  }
}
