/** The two configuration records handed to the installer: the per-node-class
    tunables (`initialize_scale_config_details`) and the filesystem layout
    with its replica policy (`initialize_scale_storage_details`). */
module ScaleConfig {
  import opened Cluster
  import opened Disks

  /** One `scale_config` entry: a node class and its single parameter. */
  datatype NodeClassParams<V> = NodeClassParams(nodeclass: NodeClass, params: seq<(string, V)>)

  datatype ScaleConfigDetails<V> = ScaleConfigDetails(
    scaleConfig: seq<NodeClassParams<V>>,
    ephemeralPortRange: string)  // scale_cluster_config

  const EphemeralPortRange: string := "60000-61000"

  /** `initialize_scale_config_details`: one entry per node class, in the
      given order, each carrying the one parameter; the cluster-wide
      ephemeral port range is fixed. */
  method InitializeScaleConfigDetails<V>(nodeClasses: seq<NodeClass>, paramKey: string, paramValue: V)
    returns (config: ScaleConfigDetails<V>)
    ensures |config.scaleConfig| == |nodeClasses|
    ensures forall i :: 0 <= i < |nodeClasses| ==>
              config.scaleConfig[i] == NodeClassParams(nodeClasses[i], [(paramKey, paramValue)])
    ensures config.ephemeralPortRange == EphemeralPortRange
  {
    var entries: seq<NodeClassParams<V>> := [];
    var k := 0;
    while k < |nodeClasses|
      invariant 0 <= k <= |nodeClasses|
      invariant |entries| == k
      invariant forall i :: 0 <= i < k ==> entries[i] == NodeClassParams(nodeClasses[i], [(paramKey, paramValue)])
    {
      entries := entries + [NodeClassParams(nodeClasses[k], [(paramKey, paramValue)])];
      k := k + 1;
    }
    config := ScaleConfigDetails(entries, EphemeralPortRange);
  }

  // ---------------------------------------------------------------------
  // The filesystem name: the last component of the mount point

  /** The path without its trailing slashes. */
  function StripTrailingSlashes(path: string): (stripped: string)
    ensures |stripped| <= |path| && stripped == path[..|stripped|]
    ensures stripped == [] || stripped[|stripped| - 1] != '/'
    ensures forall i :: |stripped| <= i < |path| ==> path[i] == '/'
  {
    if path != [] && path[|path| - 1] == '/' then StripTrailingSlashes(path[..|path| - 1])
    else path
  }

  /** The text after the last slash. */
  function LastComponent(path: string): (name: string)
    ensures '/' !in name
    ensures |name| <= |path| && name == path[|path| - |name|..]
    ensures |name| < |path| ==> path[|path| - |name| - 1] == '/'
  {
    if path == [] || path[|path| - 1] == '/' then []
    else LastComponent(path[..|path| - 1]) + [path[|path| - 1]]
  }

  /** `PurePath(fs_mount).name`: the last non-empty component. It holds no
      slash, and it is empty only for a mount point made of slashes alone
      (the root, or the empty path). */
  function FilesystemName(mount: string): (name: string)
    ensures '/' !in name && |name| <= |mount|
    ensures name == [] <==> forall i :: 0 <= i < |mount| ==> mount[i] == '/'
  {
    var stripped := StripTrailingSlashes(mount);
    StrippedEmptyIffSlashes(mount);
    LastComponent(stripped)
  }

  /** Stripping trailing slashes leaves nothing exactly when the path is
      made of slashes alone. */
  lemma StrippedEmptyIffSlashes(path: string)
    ensures StripTrailingSlashes(path) == [] <==> forall i :: 0 <= i < |path| ==> path[i] == '/'
  {
    var stripped := StripTrailingSlashes(path);
    if stripped != [] {
      assert path[|stripped| - 1] == stripped[|stripped| - 1];
    }
  }

  function Slashes(n: nat): string
  {
    seq(n, _ => '/')
  }

  lemma {:induction false} StripSlashesAfter(body: string, trailing: nat)
    requires body != [] && body[|body| - 1] != '/'
    ensures StripTrailingSlashes(body + Slashes(trailing)) == body
  {
    if trailing > 0 {
      var path := body + Slashes(trailing);
      assert path[..|path| - 1] == body + Slashes(trailing - 1);
      StripSlashesAfter(body, trailing - 1);
    } else {
      assert body + Slashes(0) == body;
    }
  }

  lemma {:induction false} LastComponentAfterSlash(parent: string, name: string)
    requires '/' !in name
    ensures LastComponent(parent + "/" + name) == name
  {
    if name != [] {
      var init := name[..|name| - 1];
      var path := parent + "/" + name;
      assert path[..|path| - 1] == parent + "/" + init;
      assert '/' !in init by {
        assert forall c :: c in init ==> c in name;
      }
      LastComponentAfterSlash(parent, init);
      assert init + [name[|name| - 1]] == name;
    }
  }

  /** A mount point written as a parent directory, a slash and a final
      name, with or without trailing slashes, is named by that final name. */
  lemma FilesystemNameOfMount(parent: string, name: string, trailing: nat)
    requires '/' !in name && name != []
    ensures FilesystemName(parent + "/" + name + Slashes(trailing)) == name
  {
    StripSlashesAfter(parent + "/" + name, trailing);
    LastComponentAfterSlash(parent, name);
  }

  // ---------------------------------------------------------------------
  // The filesystem record

  datatype FilesystemDetails = FilesystemDetails(
    filesystem: string,
    blockSize: string,
    defaultDataReplicas: nat,
    defaultMetadataReplicas: nat,
    automaticMountOption: string,
    defaultMountPoint: string,
    disks: seq<DiskEntry>)

  /** `initialize_scale_storage_details`: one filesystem, named after its
      mount point, carrying the disks through unchanged. Metadata is always
      kept twice; data is kept twice only when the cluster spans zones. */
  function ScaleStorageDetails(azCount: nat, fsMount: string, blockSize: string, disks: seq<DiskEntry>)
    : (storage: seq<FilesystemDetails>)
    ensures |storage| == 1
    ensures storage[0].disks == disks && storage[0].defaultMountPoint == fsMount
    ensures storage[0].blockSize == blockSize && storage[0].filesystem == FilesystemName(fsMount)
    ensures storage[0].defaultMetadataReplicas == 2
    ensures storage[0].defaultDataReplicas == 2 <==> azCount > 1
    ensures 1 <= storage[0].defaultDataReplicas <= storage[0].defaultMetadataReplicas
    ensures storage[0].automaticMountOption == "true"
  {
    var (dataReplicas, metadataReplicas) := if azCount > 1 then (2, 2) else (1, 2);
    [FilesystemDetails(FilesystemName(fsMount), blockSize, dataReplicas, metadataReplicas,
                       "true", fsMount, disks)]
  }
}
