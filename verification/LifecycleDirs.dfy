/**
 The directories of the transition system as entries of a BeeGFS tree: since volumes lie apart, each removal
 concerns its own volume only, and the existence of each directory is a fact of its own.
 */
module LifecycleDirs {
  import opened VolumePaths
  import opened Lifecycle

  /** The volume as the controller works on it. */
  function VolumeOf(d: Deployment, v: VolumeID): (r: Volume)
  {
    NewBeegfsVolume(WorkDir(d, v), PathOf(v))
  }

  /** The working directory of the transition system holds the volume's client configuration and its mount. */
  lemma WorkPathsOfVolume(d: Deployment, v: VolumeID)
    ensures VolumeOf(d, v).mountDirPath == WorkDir(d, v)
    ensures VolumeOf(d, v).clientConfPath == WorkConf(d, v) && VolumeOf(d, v).mountPath == WorkMount(d, v)
  {
  }

  function TrackingPath(v: VolumeID): (p: Path)
  {
    CsiDir(PathOf(v)) + ["nodes"]
  }

  /** The tracking directory that a delete looks at, and that a node writes to, is below the CSI directory. */
  lemma TrackingPathOfVolume(d: Deployment, v: VolumeID)
    ensures TrackingPath(v) == VolumeOf(d, v).csiDirPathBeegfsRoot + ["nodes"]
  {
    CsiDirOfVolume(WorkDir(d, v), PathOf(v));
  }

  /** Volumes whose name is not that of the directory that holds the tracking directories. */
  predicate ProperVolume(v: VolumeID)
  {
    PathOf(v) != [] && Base(PathOf(v)) != [".csi"]
  }

  /** The tree of one file system has exactly the directories that the transition system says. */
  ghost predicate Represents(d: Deployment, host: string, tree: set<Path>, volDirs: set<VolumeID>,
      tracking: set<VolumeID>)
  {
    forall v :: v in d.volumes && FileSystemOf(v) == host ==>
      (PathOf(v) in tree <==> v in volDirs) && (TrackingPath(v) in tree <==> v in tracking)
  }

  /** A removal keeps both directories of every volume apart. */
  lemma OthersStay(a: Path, b: Path, tree: set<Path>, dir: Path, p: Path)
    requires Apart(a, b) && (dir == a || dir == CsiDir(a)) && (b <= p || CsiDir(b) <= p)
    ensures p in RemoveAll(tree, dir) <==> p in tree
  {
    if p in tree {
      DeleteLeavesOtherVolumes(a, b, tree, p);
    }
  }

  /**
   Removing the volume's directory through its mount is, in the tree of the file system, what the step
   RemoveVolDir says.
   */
  lemma VolumeRemovalRefines(d: Deployment, v: VolumeID, tree: set<Path>, volDirs: set<VolumeID>,
      tracking: set<VolumeID>)
    requires GoodDeployment(d) && v in d.volumes && ProperVolume(v)
    requires Represents(d, FileSystemOf(v), tree, volDirs, tracking)
    ensures Represents(d, FileSystemOf(v), RemoveAll(tree, PathOf(v)), volDirs - {v}, tracking)
    ensures
      var u := VolumeOf(d, v);
      RemoveAll(HostTree(u, tree), u.volDirPath) == HostTree(u, RemoveAll(tree, PathOf(v)))
  {
    ViewsAgreeExactly(WorkDir(d, v), PathOf(v));
    RemoveOnHost(VolumeOf(d, v), tree, PathOf(v));
    forall u | u in d.volumes && FileSystemOf(u) == FileSystemOf(v)
      ensures
        && (PathOf(u) in RemoveAll(tree, PathOf(v)) <==> u in volDirs - {v})
        && (TrackingPath(u) in RemoveAll(tree, PathOf(v)) <==> u in tracking)
    {
      if u == v {
        TrackingOutside(v);
      } else {
        assert PairApart(d, v, u);
        OthersStay(PathOf(v), PathOf(u), tree, PathOf(v), PathOf(u));
        OthersStay(PathOf(v), PathOf(u), tree, PathOf(v), TrackingPath(u));
      }
    }
  }

  /**
   Removing the volume's CSI directory through its mount is, in the tree of the file system, what the step
   RemoveNodesDir says.
   */
  lemma TrackingRemovalRefines(d: Deployment, v: VolumeID, tree: set<Path>, volDirs: set<VolumeID>,
      tracking: set<VolumeID>)
    requires GoodDeployment(d) && v in d.volumes && ProperVolume(v)
    requires Represents(d, FileSystemOf(v), tree, volDirs, tracking)
    ensures
      var u := VolumeOf(d, v);
      var left := RemoveAll(tree, u.csiDirPathBeegfsRoot);
      && RemoveAll(HostTree(u, tree), u.csiDirPath) == HostTree(u, left)
      && Represents(d, FileSystemOf(v), left, volDirs, tracking - {v})
  {
    CsiDirOfVolume(WorkDir(d, v), PathOf(v));
    RemoveOnHost(VolumeOf(d, v), tree, CsiDir(PathOf(v)));
    var csi := CsiDir(PathOf(v));
    forall u | u in d.volumes && FileSystemOf(u) == FileSystemOf(v)
      ensures
        && (PathOf(u) in RemoveAll(tree, csi) <==> u in volDirs)
        && (TrackingPath(u) in RemoveAll(tree, csi) <==> u in tracking - {v})
    {
      if u == v {
        assert |csi| > |PathOf(v)| && csi <= TrackingPath(v);
      } else {
        assert PairApart(d, v, u);
        OthersStay(PathOf(v), PathOf(u), tree, csi, PathOf(u));
        OthersStay(PathOf(v), PathOf(u), tree, csi, TrackingPath(u));
      }
    }
  }

  /** A volume's tracking directory does not lie inside the volume. */
  lemma TrackingOutside(v: VolumeID)
    requires ProperVolume(v)
    ensures !(PathOf(v) <= TrackingPath(v))
  {
    var p := PathOf(v);
    var k := |p| - 1;
    assert TrackingPath(v)[k] == ".csi" && p[k] != ".csi";
  }
}
