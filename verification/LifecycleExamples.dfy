/** Runs from the initial state to states in which the guarantees of the lifecycle end. */
module LifecycleExamples {
  import opened GoStrings
  import opened ThreadSafe
  import opened VolumePaths
  import opened Lifecycle
  import opened LifecycleNodes
  import opened LifecycleTracking
  import opened LifecycleLimits

  lemma ReachesThrough(d: Deployment, w0: World, w1: World, w2: World)
    requires Reaches(d, w0, w1) && Reaches(d, w1, w2)
    ensures Reaches(d, w0, w2)
  {
    var a :| Run(d, w0, a) == w1;
    var b :| Run(d, w1, b) == w2;
    RunSplits(d, w0, a, b);
  }

  // ---- One step of a request --------------------------------------------------------------------------------

  /** Everything that the examples look at, apart from the requests. */
  datatype Scene = Scene(
    locks: set<VolumeID>,
    status: map<VolumeID, Status>,
    createFailed: set<VolumeID>,
    deleteFailed: set<VolumeID>,
    wiped: set<VolumeID>,
    volDirs: set<VolumeID>,
    nodesDirs: map<VolumeID, set<NodeID>>,
    mounts: set<Path>,
    nodes: map<NodeID, NodeHost>)

  function SceneOf(w: World): (s: Scene)
  {
    Scene(w.locks, w.status, w.createFailed, w.deleteFailed, w.wiped, w.volDirs, w.nodesDirs, w.mounts, w.nodes)
  }

  /** A request without an error so far, with the wish to set special permission bits. */
  predicate Going(w: World, r: RequestID, kind: Kind, v: VolumeID, phase: Phase)
  {
    At(w, r, kind, v, phase) && w.requests[r].special && !w.requests[r].failed
  }

  lemma Starts(d: Deployment, w0: World, w: World, kind: Kind, v: VolumeID) returns (r: RequestID, w': World)
    requires Reaches(d, w0, w) && v in d.volumes
    ensures Reaches(d, w0, w') && SceneOf(w') == SceneOf(w)
    ensures Going(w', r, kind, v, if kind == Validate then ObtainLock else ReadStatus)
  {
    r := FreshID(w.requests.Keys);
    w' := Go(d, w0, w, BeginRequest(r, kind, v, true));
  }

  lemma MissesCache(d: Deployment, w0: World, w: World, r: RequestID, kind: Kind, v: VolumeID) returns (w': World)
    requires Reaches(d, w0, w) && Going(w, r, kind, v, ReadStatus) && !AnswersFromCache(w, w.requests[r])
    ensures Reaches(d, w0, w') && SceneOf(w') == SceneOf(w) && Going(w', r, kind, v, ObtainLock)
  {
    w' := Take(d, w0, w, r, Ok);
  }

  lemma Obtains(d: Deployment, w0: World, w: World, r: RequestID, kind: Kind, v: VolumeID) returns (w': World)
    requires Reaches(d, w0, w) && Going(w, r, kind, v, ObtainLock) && v !in w.locks
    ensures Reaches(d, w0, w') && SceneOf(w') == SceneOf(w).(locks := w.locks + {v})
    ensures Going(w', r, kind, v, MakeWorkDir)
  {
    w' := Take(d, w0, w, r, Ok);
  }

  /** Phases that change nothing in the scene, and what follows them. */
  function Follow(kind: Kind, p: Phase): (next: Phase)
  {
    match p
    case MakeWorkDir => WriteClientFiles
    case WriteClientFiles =>
      (match kind case Create => CreateVolDir case Delete => MountForDelete case Validate => StatVolDir)
    case SetPattern => MountForChmod
    case ChangeMode => CreateNodesDir
    case StatVolDir => RemoveWorkDir
    case _ => p
  }

  lemma Follows(d: Deployment, w0: World, w: World, r: RequestID, kind: Kind, v: VolumeID, p: Phase) returns (w': World)
    requires Reaches(d, w0, w) && Going(w, r, kind, v, p) && Follow(kind, p) != p
    requires (p == StatVolDir ==> v in w.volDirs)
    ensures Reaches(d, w0, w') && SceneOf(w') == SceneOf(w) && Going(w', r, kind, v, Follow(kind, p))
  {
    w' := Take(d, w0, w, r, Ok);
  }

  lemma Mounts(d: Deployment, w0: World, w: World, r: RequestID, kind: Kind, v: VolumeID) returns (w': World)
    requires Reaches(d, w0, w) && kind != Validate
    requires Going(w, r, kind, v, if kind == Create then MountForChmod else MountForDelete)
    ensures Reaches(d, w0, w') && SceneOf(w') == SceneOf(w).(mounts := w.mounts + {WorkMount(d, v)})
    ensures Going(w', r, kind, v, if kind == Create then ChangeMode else CheckNodesDir)
  {
    w' := Take(d, w0, w, r, Ok);
  }

  lemma MakesVolume(d: Deployment, w0: World, w: World, r: RequestID, v: VolumeID) returns (w': World)
    requires Reaches(d, w0, w) && Going(w, r, Create, v, CreateVolDir)
    ensures Reaches(d, w0, w') && Going(w', r, Create, v, SetPattern)
    ensures SceneOf(w') == SceneOf(w).(volDirs := w.volDirs + {v}, wiped := w.wiped - {v})
  {
    w' := Take(d, w0, w, r, Ok);
  }

  lemma MakesTracking(d: Deployment, w0: World, w: World, r: RequestID, v: VolumeID, track: bool) returns (w': World)
    requires Reaches(d, w0, w) && Going(w, r, Create, v, CreateNodesDir)
    ensures Reaches(d, w0, w') && Going(w', r, Create, v, WriteCreated)
    ensures SceneOf(w') == SceneOf(w).(nodesDirs := WithNodesDir(w.nodesDirs, v, d.trackNodes && track))
  {
    w' := Take(d, w0, w, r, if track then Ok else Fail(false));
  }

  lemma NotesCreated(d: Deployment, w0: World, w: World, r: RequestID, v: VolumeID) returns (w': World)
    requires Reaches(d, w0, w) && Going(w, r, Create, v, WriteCreated)
    ensures Reaches(d, w0, w') && Going(w', r, Create, v, ListMounts)
    ensures
      SceneOf(w') == SceneOf(w).(status := w.status[v := Created],
                                 createFailed := w.createFailed - {v}, deleteFailed := w.deleteFailed - {v})
  {
    w' := Take(d, w0, w, r, Ok);
  }

  /** A failed cleanup is no concern of a create. */
  lemma LeavesMount(d: Deployment, w0: World, w: World, r: RequestID, v: VolumeID) returns (w': World)
    requires Reaches(d, w0, w) && Going(w, r, Create, v, ListMounts)
    ensures Reaches(d, w0, w') && SceneOf(w') == SceneOf(w) && Going(w', r, Create, v, ReleaseLock)
  {
    w' := Take(d, w0, w, r, Fail(false));
  }

  lemma Releases(d: Deployment, w0: World, w: World, r: RequestID, kind: Kind, v: VolumeID) returns (w': World)
    requires Reaches(d, w0, w) && Going(w, r, kind, v, ReleaseLock)
    ensures Reaches(d, w0, w') && SceneOf(w') == SceneOf(w).(locks := w.locks - {v})
    ensures At(w', r, kind, v, Finished) && w'.requests[r].reply == Success
  {
    w' := Take(d, w0, w, r, Ok);
  }

  // ---- A create that leaves its mount ---------------------------------------------------------------------------

  lemma GetsLock(d: Deployment, w0: World, w: World, kind: Kind, v: VolumeID) returns (r: RequestID, w': World)
    requires Reaches(d, w0, w) && v in d.volumes && v !in w.locks
    requires kind == Create ==> !(v in w.status && w.status[v] == Created)
    requires kind == Delete ==> !(v in w.status && w.status[v] == Deleted)
    ensures Reaches(d, w0, w') && SceneOf(w') == SceneOf(w).(locks := w.locks + {v})
    ensures Going(w', r, kind, v, Follow(kind, WriteClientFiles))
  {
    r, w' := Starts(d, w0, w, kind, v);
    if kind != Validate {
      w' := MissesCache(d, w0, w', r, kind, v);
    }
    w' := Obtains(d, w0, w', r, kind, v);
    w' := Follows(d, w0, w', r, kind, v, MakeWorkDir);
    w' := Follows(d, w0, w', r, kind, v, WriteClientFiles);
  }

  lemma CreateReachesNote(d: Deployment, w0: World, w: World, r: RequestID, v: VolumeID, track: bool)
    returns (w': World)
    requires Reaches(d, w0, w) && Going(w, r, Create, v, CreateVolDir)
    ensures Reaches(d, w0, w') && Going(w', r, Create, v, WriteCreated)
    ensures
      SceneOf(w') == SceneOf(w).(volDirs := w.volDirs + {v}, wiped := w.wiped - {v},
                                 mounts := w.mounts + {WorkMount(d, v)},
                                 nodesDirs := WithNodesDir(w.nodesDirs, v, d.trackNodes && track))
  {
    w' := MakesVolume(d, w0, w, r, v);
    w' := Follows(d, w0, w', r, Create, v, SetPattern);
    w' := Mounts(d, w0, w', r, Create, v);
    w' := Follows(d, w0, w', r, Create, v, ChangeMode);
    w' := MakesTracking(d, w0, w', r, v, track);
  }

  lemma CreateFinishes(d: Deployment, w0: World, w: World, r: RequestID, v: VolumeID) returns (w': World)
    requires Reaches(d, w0, w) && Going(w, r, Create, v, WriteCreated)
    ensures Reaches(d, w0, w') && At(w', r, Create, v, Finished) && w'.requests[r].reply == Success
    ensures
      SceneOf(w') == SceneOf(w).(locks := w.locks - {v}, status := w.status[v := Created],
                                 createFailed := w.createFailed - {v}, deleteFailed := w.deleteFailed - {v})
  {
    w' := NotesCreated(d, w0, w, r, v);
    w' := LeavesMount(d, w0, w', r, v);
    w' := Releases(d, w0, w', r, Create, v);
  }

  /** A create with special permission bits succeeds although it cannot unmount the file system again. */
  lemma CreateLeavesMount(d: Deployment, w0: World, w: World, v: VolumeID, track: bool)
    returns (r: RequestID, w': World)
    requires Reaches(d, w0, w) && v in d.volumes && v !in w.locks && !(v in w.status && w.status[v] == Created)
    ensures Reaches(d, w0, w') && At(w', r, Create, v, Finished) && w'.requests[r].reply == Success
    ensures
      SceneOf(w') == SceneOf(w).(volDirs := w.volDirs + {v}, wiped := w.wiped - {v},
                                 mounts := w.mounts + {WorkMount(d, v)},
                                 nodesDirs := WithNodesDir(w.nodesDirs, v, d.trackNodes && track),
                                 status := w.status[v := Created],
                                 createFailed := w.createFailed - {v}, deleteFailed := w.deleteFailed - {v})
  {
    r, w' := GetsLock(d, w0, w, Create, v);
    w' := CreateReachesNote(d, w0, w', r, v, track);
    w' := CreateFinishes(d, w0, w', r, v);
    assert w.locks + {v} - {v} == w.locks;
  }

  // ---- A validate that wipes the file system ----------------------------------------------------------------------

  lemma ValidateGetsExposed(d: Deployment, w0: World, w: World, v: VolumeID) returns (r: RequestID, w': World)
    requires Reaches(d, w0, w) && v in d.volumes && v !in w.locks && v in w.volDirs && WorkMount(d, v) in w.mounts
    ensures Reaches(d, w0, w') && SceneOf(w') == SceneOf(w).(locks := w.locks + {v})
    ensures Going(w', r, Validate, v, RemoveWorkDir) && Exposed(d, w', w'.requests[r])
  {
    r, w' := GetsLock(d, w0, w, Validate, v);
    w' := Follows(d, w0, w', r, Validate, v, StatVolDir);
  }

  /** The removal takes the whole file system and ends at the busy mount point, which is only logged. */
  lemma TakesEverything(d: Deployment, w0: World, w: World, r: RequestID, v: VolumeID) returns (w': World)
    requires Reaches(d, w0, w) && Going(w, r, Validate, v, RemoveWorkDir) && Exposed(d, w, w.requests[r])
    ensures Reaches(d, w0, w') && Going(w', r, Validate, v, ReleaseLock)
    ensures w'.locks == w.locks && w'.status == w.status && w'.deleteFailed == w.deleteFailed && w'.nodes == w.nodes
    ensures forall u :: SameFs(u, v) ==> u !in w'.volDirs && u !in w'.nodesDirs
  {
    w' := Take(d, w0, w, r, Fail(true));
  }

  /**
   From every state in which the file system is mounted in a volume's working directory, a Validate of that
   volume succeeds and takes every volume and every tracking directory of the file system.
   */
  lemma ValidateWipes(d: Deployment, w0: World, w: World, v: VolumeID) returns (r: RequestID, w': World)
    requires Reaches(d, w0, w) && v in d.volumes && v !in w.locks && v in w.volDirs && WorkMount(d, v) in w.mounts
    ensures Reaches(d, w0, w') && At(w', r, Validate, v, Finished) && w'.requests[r].reply == Success
    ensures w'.locks == w.locks && w'.status == w.status && w'.deleteFailed == w.deleteFailed && w'.nodes == w.nodes
    ensures forall u :: SameFs(u, v) ==> u !in w'.volDirs && u !in w'.nodesDirs
  {
    r, w' := ValidateGetsExposed(d, w0, w, v);
    w' := TakesEverything(d, w0, w', r, v);
    w' := Releases(d, w0, w', r, Validate, v);
    assert w.locks + {v} - {v} == w.locks;
  }

  /**
   For every two volumes of a file system, or one: both are created, one of them leaving its mount behind, and
   after a Validate of that one both are cached as created without a directory, though no delete has failed.
   */
  lemma CachedWithoutDirectory(d: Deployment, u: VolumeID, v: VolumeID) returns (w: World)
    requires u in d.volumes && v in d.volumes && SameFs(u, v)
    ensures Reaches(d, INITIAL, w) && u !in w.locks && v !in w.locks && u !in w.deleteFailed && v !in w.deleteFailed
    ensures u in w.status && w.status[u] == Created && u !in w.volDirs
    ensures v in w.status && w.status[v] == Created && v !in w.volDirs
  {
    Stay(d, INITIAL);
    w := INITIAL;
    var r;
    if u != v {
      r, w := CreateLeavesMount(d, INITIAL, w, u, true);
    }
    r, w := CreateLeavesMount(d, INITIAL, w, v, true);
    r, w := ValidateWipes(d, INITIAL, w, v);
  }

  // ---- Failed requests that mislead the next one --------------------------------------------------------------------

  lemma DeleteSkipsTracking(d: Deployment, w0: World, w: World, v: VolumeID) returns (r: RequestID, w': World)
    requires Reaches(d, w0, w) && v in d.volumes && v !in w.locks && v !in w.nodesDirs
    requires !(v in w.status && w.status[v] == Deleted)
    ensures Reaches(d, w0, w') && Going(w', r, Delete, v, RemoveVolDir)
    ensures SceneOf(w') == SceneOf(w).(locks := w.locks + {v}, mounts := w.mounts + {WorkMount(d, v)})
  {
    r, w' := GetsLock(d, w0, w, Delete, v);
    w' := Mounts(d, w0, w', r, Delete, v);
    w' := FindsNoTracking(d, w0, w', r, v);
  }

  lemma FindsNoTracking(d: Deployment, w0: World, w: World, r: RequestID, v: VolumeID) returns (w': World)
    requires Reaches(d, w0, w) && Going(w, r, Delete, v, CheckNodesDir) && v !in w.nodesDirs
    ensures Reaches(d, w0, w') && SceneOf(w') == SceneOf(w) && Going(w', r, Delete, v, RemoveVolDir)
  {
    w' := Take(d, w0, w, r, Ok);
  }

  /** For every volume: a create reports success without a directory, after a delete that failed. */
  lemma CreateSucceedsInVain(d: Deployment, v: VolumeID) returns (r: RequestID, w: World)
    requires v in d.volumes
    ensures Reaches(d, INITIAL, w) && v !in w.locks && v in w.status && w.status[v] == Created && v !in w.volDirs
    ensures At(w, r, Create, v, Finished) && w.requests[r].reply == Success
  {
    Stay(d, INITIAL);
    r, w := CreateLeavesMount(d, INITIAL, INITIAL, v, false);
    r, w := DeleteSkipsTracking(d, INITIAL, w, v);
    var w1 := w;
    r, w := FailedDeleteMisleads(d, w1, r, v);
    ReachesThrough(d, INITIAL, w1, w);
  }

  predicate CleaningUp(p: Phase)
  {
    p == RemoveVolDir || p == ListMounts || p == UnmountWork || p == RemoveWorkDir || p == WriteDeleted
  }

  /** One step of the end of a delete that goes well. */
  lemma CleansUp(d: Deployment, w0: World, w: World, r: RequestID, v: VolumeID, p: Phase) returns (w': World)
    requires Reaches(d, w0, w) && Going(w, r, Delete, v, p) && CleaningUp(p) && !Exposed(d, w, w.requests[r])
    ensures Reaches(d, w0, w')
    ensures
      Going(w', r, Delete, v,
        match p case RemoveVolDir => ListMounts case ListMounts => UnmountWork case UnmountWork => RemoveWorkDir
                case RemoveWorkDir => WriteDeleted case _ => ReleaseLock)
    ensures w'.locks == w.locks && w'.nodes == w.nodes && w'.nodesDirs == w.nodesDirs && w'.wiped == w.wiped
    ensures w'.volDirs == if p == RemoveVolDir then w.volDirs - {v} else w.volDirs
    ensures w'.status == if p == WriteDeleted then w.status[v := Deleted] else w.status
    ensures w'.createFailed == if p == WriteDeleted then w.createFailed - {v} else w.createFailed
    ensures w'.deleteFailed == if p == WriteDeleted then w.deleteFailed - {v} else w.deleteFailed
    ensures p == UnmountWork ==> WorkMount(d, v) !in w'.mounts
  {
    w' := Take(d, w0, w, r, Ok);
  }

  lemma DeleteSucceeds(d: Deployment, w0: World, w: World, v: VolumeID) returns (w': World)
    requires Reaches(d, w0, w) && v in d.volumes && v !in w.locks && v !in w.nodesDirs
    requires !(v in w.status && w.status[v] == Deleted)
    ensures Reaches(d, w0, w') && v !in w'.locks && v in w'.status && w'.status[v] == Deleted
    ensures w'.createFailed <= w.createFailed
  {
    var r;
    r, w' := DeleteSkipsTracking(d, w0, w, v);
    w' := CleansUp(d, w0, w', r, v, RemoveVolDir);
    w' := CleansUp(d, w0, w', r, v, ListMounts);
    w' := CleansUp(d, w0, w', r, v, UnmountWork);
    w' := CleansUp(d, w0, w', r, v, RemoveWorkDir);
    w' := CleansUp(d, w0, w', r, v, WriteDeleted);
    w' := Releases(d, w0, w', r, Delete, v);
  }

  /** For every volume: a delete reports success with the directory in place, after a create that failed. */
  lemma DeleteSucceedsInVain(d: Deployment, v: VolumeID) returns (r: RequestID, w: World)
    requires v in d.volumes
    ensures Reaches(d, INITIAL, w) && v !in w.locks && v in w.status && w.status[v] == Deleted && v in w.volDirs
    ensures At(w, r, Delete, v, Finished) && w.requests[r].reply == Success
  {
    Stay(d, INITIAL);
    w := DeleteSucceeds(d, INITIAL, INITIAL, v);
    r, w := GetsLock(d, INITIAL, w, Create, v);
    var w1 := w;
    r, w := FailedCreateMisleads(d, w1, r, v);
    ReachesThrough(d, INITIAL, w1, w);
  }

  // ---- Answers while the opposite request is at work --------------------------------------------------------------

  lemma AnswersAtOnce(d: Deployment, w0: World, w: World, r: RequestID, kind: Kind, v: VolumeID) returns (w': World)
    requires Reaches(d, w0, w) && Going(w, r, kind, v, ReadStatus) && AnswersFromCache(w, w.requests[r])
    ensures Reaches(d, w0, w') && SceneOf(w') == SceneOf(w) && At(w', r, kind, v, Finished)
    ensures w'.requests[r].reply == Success
  {
    w' := Take(d, w0, w, r, Ok);
  }

  /**
   For every volume: a create is answered from the cache while a delete is past its removal. It reports success
   without a directory, though no delete has failed and nothing was wiped. The delete has not replied yet, so the
   two can be taken to have happened one after the other, the create first.
   */
  lemma CreateAnsweredDuringDelete(d: Deployment, v: VolumeID) returns (r: RequestID, w: World)
    requires v in d.volumes
    ensures Reaches(d, INITIAL, w) && At(w, r, Create, v, Finished) && w.requests[r].reply == Success
    ensures v !in w.volDirs && w.deleteFailed == {} && w.wiped == {}
  {
    Stay(d, INITIAL);
    var first;
    first, w := CreateLeavesMount(d, INITIAL, INITIAL, v, false);
    first, w := DeleteSkipsTracking(d, INITIAL, w, v);
    w := CleansUp(d, INITIAL, w, first, v, RemoveVolDir);
    r, w := Starts(d, INITIAL, w, Create, v);
    w := AnswersAtOnce(d, INITIAL, w, r, Create, v);
  }

  /** For every volume, the other way round: a delete is answered while a create has already made the directory. */
  lemma DeleteAnsweredDuringCreate(d: Deployment, v: VolumeID) returns (r: RequestID, w: World)
    requires v in d.volumes
    ensures Reaches(d, INITIAL, w) && At(w, r, Delete, v, Finished) && w.requests[r].reply == Success
    ensures v in w.volDirs && w.createFailed == {}
  {
    Stay(d, INITIAL);
    var first;
    w := DeleteSucceeds(d, INITIAL, INITIAL, v);
    first, w := GetsLock(d, INITIAL, w, Create, v);
    w := MakesVolume(d, INITIAL, w, first, v);
    r, w := Starts(d, INITIAL, w, Delete, v);
    w := AnswersAtOnce(d, INITIAL, w, r, Delete, v);
  }

  // ---- Nodes that are not waited for ------------------------------------------------------------------------------

  lemma StageWrites(d: Deployment, w0: World, w: World, n: NodeID, v: VolumeID) returns (w': World)
    requires Reaches(d, w0, w) && v in d.volumes && v in w.volDirs && Doing(w, n, v, Idle) && Host(w, n).mounts == map[]
    ensures Reaches(d, w0, w') && SameController(w, w') && w'.volDirs == w.volDirs && w'.nodesDirs == w.nodesDirs
    ensures Doing(w', n, v, StageMount([])) && Host(w', n).mounts == map[] && v in Host(w', n).clientConf
  {
    w' := Begin(d, w0, w, n, v, StageWrite([]));
    w' := Act(d, w0, w', n, v, StageWrite([]));
    assert Doing(w', n, v, StageStat([])) && v in Host(w', n).clientConf;
    w' := Act(d, w0, w', n, v, StageStat([]));
  }

  lemma StageMounts(d: Deployment, w0: World, w: World, n: NodeID, v: VolumeID) returns (w': World)
    requires Reaches(d, w0, w) && v in d.volumes && v in w.volDirs && v in w.nodesDirs && Doing(w, n, v, Idle)
    requires Host(w, n).mounts == map[]
    ensures Reaches(d, w0, w') && SameController(w, w') && w'.volDirs == w.volDirs && w'.nodesDirs == w.nodesDirs
    ensures Doing(w', n, v, StageCheckDir) && Host(w', n).mounts == map[MountPath(d, n, v) := FreshMount(d, n, v)]
    ensures v in Host(w', n).clientConf
  {
    w' := StageWrites(d, w0, w, n, v);
    assert [] + [CfgOption(d, n, v)] == [CfgOption(d, n, v)];
    w' := Act(d, w0, w', n, v, StageMount([]));
  }

  /** A node stages the volume and leaves its tracking file. */
  lemma StageTracks(d: Deployment, w0: World, w: World, n: NodeID, v: VolumeID) returns (w': World)
    requires Reaches(d, w0, w) && v in d.volumes && v in w.volDirs && v in w.nodesDirs && Doing(w, n, v, Idle)
    requires Host(w, n).mounts == map[]
    ensures Reaches(d, w0, w') && SameController(w, w') && w'.volDirs == w.volDirs
    ensures w'.nodesDirs == w.nodesDirs[v := w.nodesDirs[v] + {n}]
    ensures Doing(w', n, v, Idle) && Host(w', n).mounts == map[MountPath(d, n, v) := FreshMount(d, n, v)]
    ensures v in Host(w', n).clientConf
  {
    w' := StageMounts(d, w0, w, n, v);
    w' := Act(d, w0, w', n, v, StageCheckDir);
    assert Doing(w', n, v, StageTrack) && w'.nodesDirs == w.nodesDirs;
    w' := Act(d, w0, w', n, v, StageTrack);
  }

  /** A volume with its tracking directory, and the file system still mounted in its working directory. */
  lemma TrackingVolume(d: Deployment, v: VolumeID) returns (w: World)
    requires v in d.volumes && d.trackNodes
    ensures Reaches(d, INITIAL, w) && v !in w.locks && v in w.volDirs && w.nodesDirs == map[v := {}] && w.nodes == map[]
    ensures v in w.status && w.status[v] == Created && WorkMount(d, v) in w.mounts
  {
    Stay(d, INITIAL);
    var r;
    r, w := CreateLeavesMount(d, INITIAL, INITIAL, v, true);
  }

  /** The node has staged the volume and has not begun to unstage it. */
  predicate StillStaged(d: Deployment, w: World, n: NodeID, v: VolumeID)
  {
    Staged(d, n, Host(w, n), v) && Doing(w, n, v, Idle)
  }

  lemma TrackedVolume(d: Deployment, n: NodeID, v: VolumeID) returns (w: World)
    requires v in d.volumes && d.trackNodes
    ensures Reaches(d, INITIAL, w) && v !in w.locks && v in w.volDirs && w.nodesDirs == map[v := {n}]
    ensures StillStaged(d, w, n, v)
    ensures v in w.status && w.status[v] == Created && WorkMount(d, v) in w.mounts
    ensures Host(w, n).mounts == map[MountPath(d, n, v) := FreshMount(d, n, v)]
  {
    w := TrackingVolume(d, v);
    w := StageTracks(d, INITIAL, w, n, v);
    assert w.nodesDirs[v] == {n};
  }

  /**
   For every volume and node: a delete gives up on the node, and a retry passes the empty test with it still
   staged.
   */
  lemma GivenUpOn(d: Deployment, n: NodeID, v: VolumeID) returns (r: RequestID, w: World)
    requires v in d.volumes && d.trackNodes
    ensures Reaches(d, INITIAL, w) && PassesEmptyTest(d, w, ControllerStep(r, Ok), v) && StillStaged(d, w, n, v)
  {
    w := TrackedVolume(d, n, v);
    r, w := DeleteReachesTest(d, INITIAL, w, v);
    var w1 := w;
    r, w := GivingUpLosesTrack(d, w1, r, v);
    ReachesThrough(d, INITIAL, w1, w);
  }

  lemma PassesTest(d: Deployment, w0: World, w: World, r: RequestID, v: VolumeID) returns (w': World)
    requires Reaches(d, w0, w) && At(w, r, Delete, v, CheckEmpty) && v in w.nodesDirs && w.nodesDirs[v] == {}
    ensures Reaches(d, w0, w') && At(w', r, Delete, v, RemoveNodesDir) && SameOnDisk(w, w')
  {
    w' := Take(d, w0, w, r, Ok);
  }

  /**
   For every volume and node: the node stages while a delete removes the directory, and a retry passes the empty
   test again.
   */
  lemma StagedTooLate(d: Deployment, n: NodeID, v: VolumeID) returns (r: RequestID, w: World)
    requires v in d.volumes && d.trackNodes
    ensures Reaches(d, INITIAL, w) && PassesEmptyTest(d, w, ControllerStep(r, Ok), v) && StillStaged(d, w, n, v)
  {
    w := TrackingVolume(d, v);
    r, w := DeleteReachesTest(d, INITIAL, w, v);
    w := PassesTest(d, INITIAL, w, r, v);
    w := StageTracks(d, INITIAL, w, n, v);
    r, w := RemovalLosesTrack(d, INITIAL, w, r, v);
  }

  lemma TakesTrackingFile(d: Deployment, w0: World, w: World, r: RequestID, n: NodeID, v: VolumeID) returns (w': World)
    requires Reaches(d, w0, w) && Going(w, r, Validate, v, RemoveWorkDir) && Exposed(d, w, w.requests[r])
    requires w.nodesDirs == map[v := {n}]
    ensures Reaches(d, w0, w') && Going(w', r, Validate, v, RemoveWorkDir)
    ensures SceneOf(w') == SceneOf(w).(nodesDirs := map[v := {}])
  {
    w' := Take(d, w0, w, r, Wipe(LostFile(v, n)));
    assert w'.nodesDirs[v] == {};
    assert w'.nodesDirs == map[v := {}];
    assert w'.volDirs == w.volDirs && w'.wiped == w.wiped;
  }

  lemma NothingTaken(d: Deployment, w: World, q: Request)
    requires Exposed(d, w, q)
    ensures NextVolDirs(d, w, q, Fail(false)) == w.volDirs && NextNodesDirs(d, w, q, Fail(false)) == w.nodesDirs
    ensures NextWiped(d, w, q, Fail(false)) == w.wiped
  {
    var dirs := NextNodesDirs(d, w, q, Fail(false));
    assert dirs.Keys == w.nodesDirs.Keys;
    forall u | u in dirs ensures dirs[u] == w.nodesDirs[u] {
    }
  }

  lemma StopsEarly(d: Deployment, w0: World, w: World, r: RequestID, v: VolumeID) returns (w': World)
    requires Reaches(d, w0, w) && Going(w, r, Validate, v, RemoveWorkDir) && Exposed(d, w, w.requests[r])
    ensures Reaches(d, w0, w') && Going(w', r, Validate, v, ReleaseLock) && SceneOf(w') == SceneOf(w)
  {
    NothingTaken(d, w, w.requests[r]);
    w' := Take(d, w0, w, r, Fail(false));
  }

  lemma ValidateTakesFile(d: Deployment, w0: World, w: World, n: NodeID, v: VolumeID) returns (w': World)
    requires Reaches(d, w0, w) && v in d.volumes && v !in w.locks && v in w.volDirs && WorkMount(d, v) in w.mounts
    requires w.nodesDirs == map[v := {n}]
    ensures Reaches(d, w0, w') && SceneOf(w') == SceneOf(w).(nodesDirs := map[v := {}])
  {
    var r;
    r, w' := ValidateGetsExposed(d, w0, w, v);
    w' := TakesTrackingFile(d, w0, w', r, n, v);
    w' := StopsEarly(d, w0, w', r, v);
    w' := Releases(d, w0, w', r, Validate, v);
    assert w.locks + {v} - {v} == w.locks;
  }

  /**
   For every volume and node: a Validate wipes the node's tracking file, and a delete passes the empty test with
   it still staged.
   */
  lemma WipedTracking(d: Deployment, n: NodeID, v: VolumeID) returns (r: RequestID, w: World)
    requires v in d.volumes && d.trackNodes
    ensures Reaches(d, INITIAL, w) && PassesEmptyTest(d, w, ControllerStep(r, Ok), v) && StillStaged(d, w, n, v)
  {
    w := TrackedVolume(d, n, v);
    w := ValidateTakesFile(d, INITIAL, w, n, v);
    r, w := DeleteReachesTest(d, INITIAL, w, v);
  }

  /**
   For every volume, node and target that the scan sees: the volume stays published and staged, but is not
   tracked any more.
   */
  lemma PublishedUntracked(d: Deployment, n: NodeID, v: VolumeID, p: string) returns (w: World)
    requires v in d.volumes && d.trackNodes && TargetOk(d, n, p) && !Contains(p, Exclude(d, n, v))
    ensures Reaches(d, INITIAL, w) && Published(d, n, Host(w, n), v, p) && StillStaged(d, w, n, v) && !Tracked(w, n, v)
  {
    w := TrackedVolume(d, n, v);
    var mounts := Host(w, n).mounts;
    w := PublishChecks(d, INITIAL, w, n, v, p);
    w := Act(d, INITIAL, w, n, v, PublishBind(p));
    assert FreshMount(d, n, v).opts[0] == CfgOption(d, n, v);
    assert Host(w, n).mounts == mounts[p := FreshMount(d, n, v)];
    var w1 := w;
    w := RefusedUnstageUntracks(d, w1, n, v, p);
    ReachesThrough(d, INITIAL, w1, w);
  }
}
