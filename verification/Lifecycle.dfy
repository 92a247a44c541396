/**
 The volume lifecycle as a transition system: controller requests and node RPCs that interleave freely.

 Each external call is one step, and each may fail, before or after it has had its effect. Node RPCs for
 one volume on one node do not overlap (the container orchestrator serialises them); different volumes,
 different nodes and the controller do. The services on the controller and on every node may be restarted, and
 their hosts rebooted, at any time. Every volume has one staging path per node. Volume directories do not
 contain one another, so the existence of each is a fact of its own. Different management hosts stand for
 different file systems.
 */
module Lifecycle {
  import opened ThreadSafe
  import opened VolumePaths
  import opened GoStrings
  import VolumeIDs

  type VolumeID = string
  type NodeID = string
  type RequestID = nat

  /** What stays fixed during a run. */
  datatype Deployment = Deployment(
    volumes: set<VolumeID>,
    sha1: string -> string,
    csDataDir: Path,
    staging: (NodeID, VolumeID) -> string,
    trackNodes: bool)

  ghost predicate GoodDeployment(d: Deployment)
  {
    && VolumeIDs.GoodDigest(d.sha1, d.volumes)
    && (forall v :: v in d.volumes ==> VolumeIDs.CanonicalID(v))
    && (forall n: NodeID, u: VolumeID, v: VolumeID :: d.staging(n, u) == d.staging(n, v) ==> u == v)
    && (forall u, v :: PairApart(d, u, v))
    && (forall n: NodeID, v: VolumeID :: d.staging(n, v) != "" && d.staging(n, v)[|d.staging(n, v)| - 1] != '/')
  }

  /** The management host in a volume ID names its file system. */
  function FileSystemOf(v: VolumeID): (host: string)
  {
    match VolumeIDs.ParseBeegfsURL(v) case Some(parts) => parts.0 case None => v
  }

  predicate SameFs(u: VolumeID, v: VolumeID)
  {
    FileSystemOf(u) == FileSystemOf(v)
  }

  /** Where the volume lies in its file system. */
  function PathOf(v: VolumeID): (p: Path)
  {
    match VolumeIDs.ParseBeegfsURL(v) case Some(parts) => CleanPath(parts.1) case None => []
  }

  /** Volumes of one file system do not lie inside one another, nor inside each other's tracking directory. */
  predicate PairApart(d: Deployment, u: VolumeID, v: VolumeID)
  {
    u in d.volumes && v in d.volumes && u != v && SameFs(u, v) ==> Apart(PathOf(u), PathOf(v))
  }

  // ---- Controller requests ----------------------------------------------------------------------------------

  datatype Kind = Create | Delete | Validate

  /** The next thing a request is going to do. */
  datatype Phase =
    | ReadStatus
    | ObtainLock
    | MakeWorkDir
    | WriteClientFiles
    | CreateVolDir
    | SetPattern
    | MountForChmod
    | ChangeMode
    | CreateNodesDir
    | WriteCreated
    | MountForDelete
    | CheckNodesDir
    | CheckEmpty
    | RemoveNodesDir
    | RemoveVolDir
    | StatVolDir
    | ListMounts
    | UnmountWork
    | RemoveWorkDir
    | WriteDeleted
    | ReleaseLock
    | Finished

  /** Lost: the controller was restarted meanwhile. */
  datatype Reply = NoReply | Success | Aborted | Failure | Lost

  /** special: the volume needs permission bits that require a mount. The counters are history. */
  datatype Request = Request(
    kind: Kind,
    volume: VolumeID,
    special: bool,
    phase: Phase,
    failed: bool,
    reply: Reply,
    obtained: nat,
    released: nat)

  // ---- Node RPCs ----------------------------------------------------------------------------------------------

  datatype MountEntry = MountEntry(device: string, opts: seq<string>)

  datatype Rpc =
    | Idle
    | StageWrite(opts: seq<string>)
    | StageStat(opts: seq<string>)
    | StageMount(opts: seq<string>)
    | StageCheckDir
    | StageTrack
    | UnstageCheck
    | UnstageUntrack
    | UnstageList
    | UnstageUnmount
    | UnstageClean
    | PublishStat(target: string)
    | PublishCheck(target: string)
    | PublishBind(target: string)
    | Unpublish(target: string)

  /** lostTrack: volumes whose tracking file their latest unstage could not handle, or a reboot left behind; history. */
  datatype NodeHost = NodeHost(
    mounts: map<string, MountEntry>,
    clientConf: set<VolumeID>,
    rpcs: map<VolumeID, Rpc>,
    lostTrack: set<VolumeID>)

  // ---- The world ----------------------------------------------------------------------------------------------

  /**
   volDirs: volume directories in BeeGFS. nodesDirs: tracking directories and the nodes that have a file
   there. files, mounts: the controller's host. createFailed, deleteFailed: volumes for which such a
   request failed under the lock since the status was last written; history. wiped: volumes whose directory
   went with somebody else's working directory and has not been made again; history.
   */
  datatype World = World(
    requests: map<RequestID, Request>,
    locks: set<VolumeID>,
    status: map<VolumeID, Status>,
    createFailed: set<VolumeID>,
    deleteFailed: set<VolumeID>,
    wiped: set<VolumeID>,
    volDirs: set<VolumeID>,
    nodesDirs: map<VolumeID, set<NodeID>>,
    files: set<Path>,
    mounts: set<Path>,
    nodes: map<NodeID, NodeHost>)

  predicate At(w: World, r: RequestID, kind: Kind, v: VolumeID, phase: Phase)
  {
    r in w.requests && w.requests[r].kind == kind && w.requests[r].volume == v && w.requests[r].phase == phase
  }

  const INITIAL := World(map[], {}, map[], {}, {}, {}, {}, map[], {}, {}, map[])

  const NO_HOST := NodeHost(map[], {}, map[], {})

  function Host(w: World, n: NodeID): (h: NodeHost)
  {
    if n in w.nodes then w.nodes[n] else NO_HOST
  }

  function RpcOf(h: NodeHost, v: VolumeID): (r: Rpc)
  {
    if v in h.rpcs then h.rpcs[v] else Idle
  }

  // ---- Paths ----------------------------------------------------------------------------------------------------

  function WorkDir(d: Deployment, v: VolumeID): (p: Path)
  {
    d.csDataDir + [VolumeIDs.SanitizeVolumeID(v, d.sha1)]
  }

  function WorkConf(d: Deployment, v: VolumeID): (p: Path)
  {
    WorkDir(d, v) + ["beegfs-client.conf"]
  }

  function WorkMount(d: Deployment, v: VolumeID): (p: Path)
  {
    WorkDir(d, v) + ["mount"]
  }

  function MountPath(d: Deployment, n: NodeID, v: VolumeID): (p: string)
  {
    d.staging(n, v) + "/mount"
  }

  function ConfPath(d: Deployment, n: NodeID, v: VolumeID): (p: string)
  {
    d.staging(n, v) + "/beegfs-client.conf"
  }

  function CfgOption(d: Deployment, n: NodeID, v: VolumeID): (o: string)
  {
    "cfgFile=" + ConfPath(d, n, v)
  }

  /** Everything behind the last slash. */
  function BaseName(s: string): (r: string)
  {
    if s == "" || s[|s| - 1] == '/' then "" else BaseName(s[..|s| - 1]) + [s[|s| - 1]]
  }

  function Exclude(d: Deployment, n: NodeID, v: VolumeID): (r: string)
  {
    BaseName(d.staging(n, v)) + "/mount"
  }

  function Mounted(d: Deployment, n: NodeID, h: NodeHost, v: VolumeID): (r: bool)
  {
    MountPath(d, n, v) in h.mounts
  }

  // ---- Refusing to unmount ----------------------------------------------------------------------------------------

  const DEVICE := "beegfs_nodev"

  predicate AnyContains(opts: seq<string>, sub: string)
  {
    exists i :: 0 <= i < |opts| && Contains(opts[i], sub)
  }

  /** An entry of the mount table that looks like a bind mount of the file system with this client configuration. */
  predicate LooksBound(path: string, entry: MountEntry, exclude: string, confPath: string)
  {
    entry.device == DEVICE && !Contains(path, exclude) && AnyContains(entry.opts, confPath)
  }

  predicate RefusesUnmount(mounts: map<string, MountEntry>, exclude: string, confPath: string)
  {
    exists p :: p in mounts && LooksBound(p, mounts[p], exclude, confPath)
  }

  /**
   Unmounting is refused exactly if something of the device is mounted at a path without the excluded part, with
   an option in which the path of the client configuration occurs.
   */
  lemma RefusesExactly(mounts: map<string, MountEntry>, exclude: string, confPath: string)
    ensures
      RefusesUnmount(mounts, exclude, confPath) <==>
        exists p, i: nat, before: string, after: string ::
          && p in mounts && mounts[p].device == "beegfs_nodev"
          && (forall a: string, b: string :: p != a + exclude + b)
          && i < |mounts[p].opts| && mounts[p].opts[i] == before + confPath + after
  {
    if p :| p in mounts && LooksBound(p, mounts[p], exclude, confPath) {
      ContainsExactly(p, exclude);
      var i: nat :| i < |mounts[p].opts| && Contains(mounts[p].opts[i], confPath);
      ContainsExactly(mounts[p].opts[i], confPath);
    }
    if p, i: nat, before: string, after: string :|
      && p in mounts && mounts[p].device == "beegfs_nodev"
      && (forall a: string, b: string :: p != a + exclude + b)
      && i < |mounts[p].opts| && mounts[p].opts[i] == before + confPath + after
    {
      ContainsExactly(p, exclude);
      ContainsInside(before, confPath, after);
      assert LooksBound(p, mounts[p], exclude, confPath);
    }
  }

  lemma {:induction false} BaseNameIs(dir: string, name: string)
    requires '/' !in name
    ensures BaseName(dir + "/" + name) == name
  {
    var s := dir + "/" + name;
    if name != "" {
      var init := name[..|name| - 1];
      assert s[..|s| - 1] == dir + "/" + init && name == init + [name[|name| - 1]];
      BaseNameIs(dir, init);
    }
  }

  /** The paths of a staging directory: only its own name and the mount point count for the exclusion. */
  lemma StagingPaths(d: Deployment, n: NodeID, v: VolumeID, dir: string, name: string)
    requires d.staging(n, v) == dir + "/" + name && '/' !in name
    ensures Exclude(d, n, v) == name + "/mount" && MountPath(d, n, v) == dir + "/" + name + "/mount"
    ensures ConfPath(d, n, v) == dir + "/" + name + "/beegfs-client.conf"
    ensures CfgOption(d, n, v) == "cfgFile=" + ConfPath(d, n, v)
  {
    BaseNameIs(dir, name);
  }

  /** The list has an entry for each mount of the table, and no other. */
  predicate Lists(list: seq<(string, MountEntry)>, mounts: map<string, MountEntry>)
  {
    && (forall i :: 0 <= i < |list| ==> list[i].0 in mounts && mounts[list[i].0] == list[i].1)
    && (forall p :: p in mounts ==> (p, mounts[p]) in list)
  }

  /** The scan of a list of the mount table refuses exactly if the table calls for it. */
  lemma ScanDecides(list: seq<(string, MountEntry)>, mounts: map<string, MountEntry>, exclude: string, confPath: string)
    requires Lists(list, mounts)
    ensures
      (exists i :: 0 <= i < |list| && LooksBound(list[i].0, list[i].1, exclude, confPath))
      <==> RefusesUnmount(mounts, exclude, confPath)
  {
    if p :| p in mounts && LooksBound(p, mounts[p], exclude, confPath) {
      var i :| 0 <= i < |list| && list[i] == (p, mounts[p]);
      assert LooksBound(list[i].0, list[i].1, exclude, confPath);
    }
    if i :| 0 <= i < |list| && LooksBound(list[i].0, list[i].1, exclude, confPath) {
      assert LooksBound(list[i].0, mounts[list[i].0], exclude, confPath);
    }
  }

  /** The scan of the mount list in unmountAndCleanUpIfNecessary. */
  method ScanMountList(list: seq<(string, MountEntry)>, exclude: string, confPath: string) returns (refuse: bool)
    ensures refuse <==> exists i :: 0 <= i < |list| && LooksBound(list[i].0, list[i].1, exclude, confPath)
    ensures forall mounts :: Lists(list, mounts) ==> (refuse <==> RefusesUnmount(mounts, exclude, confPath))
  {
    forall mounts | Lists(list, mounts)
      ensures
        (exists i :: 0 <= i < |list| && LooksBound(list[i].0, list[i].1, exclude, confPath))
        <==> RefusesUnmount(mounts, exclude, confPath)
    {
      ScanDecides(list, mounts, exclude, confPath);
    }
    var i := 0;
    while i < |list|
      invariant 0 <= i <= |list|
      invariant forall k :: 0 <= k < i ==> !LooksBound(list[k].0, list[k].1, exclude, confPath)
    {
      var (path, entry) := list[i];
      if entry.device == DEVICE && !Contains(path, exclude) {
        var j := 0;
        while j < |entry.opts|
          invariant 0 <= j <= |entry.opts|
          invariant forall k :: 0 <= k < j ==> !Contains(entry.opts[k], confPath)
        {
          if Contains(entry.opts[j], confPath) {
            assert LooksBound(list[i].0, list[i].1, exclude, confPath);
            return true;
          }
          j := j + 1;
        }
      }
      i := i + 1;
    }
    return false;
  }

  // ---- Steps ------------------------------------------------------------------------------------------------------

  /** A part of a file system that is removed ahead of the rest: a volume, its tracking directory, or one file in it. */
  datatype Loss = LostVolume(v: VolumeID) | LostTracking(v: VolumeID) | LostFile(v: VolumeID, node: NodeID)

  /**
   What the environment lets a call do. GiveUp: the deadline has passed. Unlink: one file of a directory goes.
   Wipe: a recursive removal has crossed a mount point and takes something on the other side.
   */
  datatype Outcome = Ok | Fail(applied: bool) | GiveUp | Unlink(node: NodeID) | Wipe(loss: Loss)

  datatype Step =
    | BeginRequest(r: RequestID, kind: Kind, volume: VolumeID, special: bool)
    | ControllerStep(r: RequestID, outcome: Outcome)
    | BeginRpc(n: NodeID, volume: VolumeID, rpc: Rpc)
    | NodeStep(n: NodeID, volume: VolumeID, outcome: Outcome)
    | Restart
    | Reboot
    | RestartNode(n: NodeID)
    | RebootNode(n: NodeID)

  /** Whether the call's effect happens. */
  predicate Applies(o: Outcome)
  {
    o == Ok || o == Fail(true)
  }

  /** What a request is about, and what it has done with its lock. */
  predicate SameRequest(q: Request, r: Request)
  {
    r.kind == q.kind && r.volume == q.volume && r.special == q.special && r.reply == q.reply
    && r.obtained == q.obtained && r.released == q.released
  }

  /** A request continues, or turns to its deferred cleanup with an error to report. */
  function Onward(q: Request, o: Outcome, next: Phase): (r: Request)
    ensures SameRequest(q, r)
  {
    if o == Ok then q.(phase := next)
    else q.(failed := true, phase := if q.kind == Validate then RemoveWorkDir else ListMounts)
  }

  /** The deferred cleanup continues; only DeleteVolume reports that it failed. */
  function OnwardCleanup(q: Request, o: Outcome, next: Phase): (r: Request)
    ensures SameRequest(q, r)
  {
    if o == Ok then q.(phase := next) else AfterCleanup(q.(failed := q.failed || q.kind == Delete))
  }

  function AfterCleanup(q: Request): (r: Request)
    ensures SameRequest(q, r)
  {
    q.(phase := if q.kind == Delete && !q.failed then WriteDeleted else ReleaseLock)
  }

  /** A tracking directory is created empty, or left as it is. */
  function WithNodesDir(dirs: map<VolumeID, set<NodeID>>, v: VolumeID, really: bool): (r: map<VolumeID, set<NodeID>>)
  {
    if really && v !in dirs then dirs[v := {}] else dirs
  }

  function WithTrackingFile(dirs: map<VolumeID, set<NodeID>>, v: VolumeID, n: NodeID,
      really: bool): (r: map<VolumeID, set<NodeID>>)
  {
    if really && v in dirs then dirs[v := dirs[v] + {n}] else dirs
  }

  function WithoutTrackingFile(dirs: map<VolumeID, set<NodeID>>, v: VolumeID, n: NodeID,
      really: bool): (r: map<VolumeID, set<NodeID>>)
  {
    if really && v in dirs then dirs[v := dirs[v] - {n}] else dirs
  }

  // What one step of a request does, one part of the world after another. The request itself moves to its
  // next phase; every other part is left alone except in the phases named.

  function AnswersFromCache(w: World, q: Request): (r: bool)
  {
    q.volume in w.status
    && ((q.kind == Create && w.status[q.volume] == Created) || (q.kind == Delete && w.status[q.volume] == Deleted))
  }

  /** Whether a step at RemoveNodesDir leaves the request there: a file was unlinked, or files are left. */
  function StillRemoving(w: World, q: Request, o: Outcome): (r: bool)
  {
    o.Unlink? || (o == Ok && q.volume in w.nodesDirs && w.nodesDirs[q.volume] != {})
  }

  function NextRequest(w: World, q: Request, o: Outcome): (q': Request)
  {
    var v := q.volume;
    match q.phase
    case ReadStatus =>
      if AnswersFromCache(w, q) then q.(phase := Finished, reply := Success) else q.(phase := ObtainLock)
    case ObtainLock =>
      if TryObtain(w.locks, v).0 then q.(phase := MakeWorkDir, obtained := q.obtained + 1)
      else q.(phase := Finished, reply := Aborted)
    case MakeWorkDir => Onward(q, o, WriteClientFiles)
    case WriteClientFiles =>
      Onward(q, o, match q.kind case Create => CreateVolDir case Delete => MountForDelete case Validate => StatVolDir)
    case CreateVolDir => Onward(q, o, SetPattern)
    case SetPattern => Onward(q, o, if q.special then MountForChmod else CreateNodesDir)
    case MountForChmod => Onward(q, o, ChangeMode)
    case ChangeMode => Onward(q, o, CreateNodesDir)
    case CreateNodesDir => q.(phase := WriteCreated)  // a failure here is logged and otherwise ignored
    case WriteCreated => q.(phase := ListMounts)
    case MountForDelete => Onward(q, o, CheckNodesDir)
    case CheckNodesDir => Onward(q, o, if v in w.nodesDirs then CheckEmpty else RemoveVolDir)
    case CheckEmpty =>
      // A directory that is gone cannot be read. One with files in it is looked at again unless time is up.
      if v !in w.nodesDirs then Onward(q, Fail(false), RemoveNodesDir)
      else if o == GiveUp then q.(phase := RemoveNodesDir)
      else Onward(q, o, if w.nodesDirs[v] == {} then RemoveNodesDir else CheckNodesDir)
    case RemoveNodesDir => if StillRemoving(w, q, o) then q else Onward(q, o, RemoveVolDir)
    case RemoveVolDir => Onward(q, o, ListMounts)
    case StatVolDir => Onward(q, if v in w.volDirs then o else Fail(false), RemoveWorkDir)
    case ListMounts => OnwardCleanup(q, o, UnmountWork)
    case UnmountWork => OnwardCleanup(q, o, RemoveWorkDir)
    case RemoveWorkDir => if o.Wipe? then q else AfterCleanup(q.(failed := q.failed || (o != Ok && q.kind == Delete)))
    case WriteDeleted => q.(phase := ReleaseLock)
    case ReleaseLock => q.(phase := Finished, reply := if q.failed then Failure else Success,
        released := q.released + 1)
    case Finished => q
  }

  function NextLocks(w: World, q: Request): (locks: set<VolumeID>)
  {
    if q.phase == ObtainLock then TryObtain(w.locks, q.volume).1
    else if q.phase == ReleaseLock then Unlock(w.locks, q.volume)
    else w.locks
  }

  function NextStatus(w: World, q: Request): (status: map<VolumeID, Status>)
  {
    if q.phase == WriteCreated then w.status[q.volume := Created]
    else if q.phase == WriteDeleted then w.status[q.volume := Deleted]
    else w.status
  }

  /** The requests of this kind that have failed under the lock since the last status write. */
  function NextFailed(failed: set<VolumeID>, kind: Kind, q: Request): (failed': set<VolumeID>)
  {
    if q.phase == WriteCreated || q.phase == WriteDeleted then failed - {q.volume}
    else if q.phase == ReleaseLock && q.failed && q.kind == kind then failed + {q.volume}
    else failed
  }

  /**
   The working directory is removed with the file system still mounted inside. The removal takes the contents
   of the file system, all or in part, and ends with an error at the busy mount point.
   */
  predicate Exposed(d: Deployment, w: World, q: Request)
  {
    q.phase == RemoveWorkDir && WorkMount(d, q.volume) in w.mounts
  }

  predicate TakesVolume(d: Deployment, w: World, q: Request, o: Outcome, u: VolumeID)
  {
    Exposed(d, w, q) && SameFs(u, q.volume) && (Applies(o) || o == Wipe(LostVolume(u)))
  }

  predicate TakesTracking(d: Deployment, w: World, q: Request, o: Outcome, u: VolumeID)
  {
    Exposed(d, w, q) && SameFs(u, q.volume) && (Applies(o) || o == Wipe(LostTracking(u)))
  }

  predicate TakesFile(d: Deployment, w: World, q: Request, o: Outcome, u: VolumeID, n: NodeID)
  {
    Exposed(d, w, q) && SameFs(u, q.volume) && o == Wipe(LostFile(u, n))
  }

  function NextVolDirs(d: Deployment, w: World, q: Request, o: Outcome): (dirs: set<VolumeID>)
  {
    if q.phase == CreateVolDir && Applies(o) then w.volDirs + {q.volume}
    else if q.phase == RemoveVolDir && Applies(o) then w.volDirs - {q.volume}
    else if Exposed(d, w, q) then set u | u in w.volDirs && !TakesVolume(d, w, q, o, u)
    else w.volDirs
  }

  function NextWiped(d: Deployment, w: World, q: Request, o: Outcome): (wiped: set<VolumeID>)
  {
    if q.phase == CreateVolDir && Applies(o) then w.wiped - {q.volume}
    else if Exposed(d, w, q) then w.wiped + set u | u in w.volDirs && TakesVolume(d, w, q, o, u)
    else w.wiped
  }

  /** Tracking files are unlinked one by one; the directory goes last, and only once it is empty. */
  function NextNodesDirs(d: Deployment, w: World, q: Request, o: Outcome): (dirs: map<VolumeID, set<NodeID>>)
  {
    var v := q.volume;
    if q.phase == CreateNodesDir then WithNodesDir(w.nodesDirs, v, d.trackNodes && Applies(o))
    else if q.phase == RemoveNodesDir && o.Unlink? then WithoutTrackingFile(w.nodesDirs, v, o.node, true)
    else if q.phase == RemoveNodesDir && Applies(o) && v in w.nodesDirs && w.nodesDirs[v] == {} then w.nodesDirs - {v}
    else if Exposed(d, w, q) then
      map u | u in w.nodesDirs && !TakesTracking(d, w, q, o, u) ::
        set n | n in w.nodesDirs[u] && !TakesFile(d, w, q, o, u, n)
    else w.nodesDirs
  }

  function NextFiles(d: Deployment, w: World, q: Request, o: Outcome): (files: set<Path>)
  {
    if !Applies(o) then w.files
    else if q.phase == MakeWorkDir then w.files + {WorkDir(d, q.volume)}
    else if q.phase == WriteClientFiles then w.files + {WorkConf(d, q.volume)}
    else if q.phase == RemoveWorkDir then
      RemoveAll(w.files, WorkDir(d, q.volume)) + if Exposed(d, w, q) then w.files * {WorkDir(d, q.volume)} else {}
    else w.files
  }

  function NextMounts(d: Deployment, w: World, q: Request, o: Outcome): (mounts: set<Path>)
  {
    if !Applies(o) then w.mounts
    else if q.phase == MountForChmod || q.phase == MountForDelete then w.mounts + {WorkMount(d, q.volume)}
    else if q.phase == UnmountWork then w.mounts - {WorkMount(d, q.volume)}
    else w.mounts
  }

  function ControllerNext(d: Deployment, w: World, r: RequestID, o: Outcome): (w': World)
    requires r in w.requests
  {
    var q := w.requests[r];
    World(
      w.requests[r := NextRequest(w, q, o)],
      NextLocks(w, q),
      NextStatus(w, q),
      NextFailed(w.createFailed, Create, q),
      NextFailed(w.deleteFailed, Delete, q),
      NextWiped(d, w, q, o),
      NextVolDirs(d, w, q, o),
      NextNodesDirs(d, w, q, o),
      NextFiles(d, w, q, o),
      NextMounts(d, w, q, o),
      w.nodes)
  }

  /** The RPC turns to what comes next, or ends with an error. */
  function Proceed(o: Outcome, next: Rpc): (r: Rpc)
  {
    if o == Ok then next else Idle
  }

  function NextRpc(d: Deployment, w: World, n: NodeID, h: NodeHost, v: VolumeID, o: Outcome): (r: Rpc)
  {
    var mounted := Mounted(d, n, h, v);
    match RpcOf(h, v)
    case Idle => Idle
    case StageWrite(opts) => Proceed(o, StageStat(opts))
    case StageStat(opts) => Proceed(if v in w.volDirs then o else Fail(false), StageMount(opts))
    case StageMount(opts) => Proceed(o, StageCheckDir)
    case StageCheckDir => Proceed(o, if mounted && v in w.nodesDirs then StageTrack else Idle)
    case StageTrack => Idle
    case UnstageCheck =>
      if o == Ok && mounted && v in w.nodesDirs && n in w.nodesDirs[v] then UnstageUntrack else UnstageList
    case UnstageUntrack => UnstageList
    case UnstageList =>
      Proceed(if RefusesUnmount(h.mounts, Exclude(d, n, v), ConfPath(d, n, v)) then Fail(false) else o, UnstageUnmount)
    case UnstageUnmount => Proceed(o, UnstageClean)
    case UnstageClean => Idle
    case PublishStat(target) => Proceed(if v in w.volDirs then o else Fail(false), PublishCheck(target))
    case PublishCheck(target) => Proceed(o, if target in h.mounts then Idle else PublishBind(target))
    case PublishBind(target) => Idle
    case Unpublish(target) => Idle
  }

  /** A bind mount shows the device and the options of the file system it binds. */
  function NextMountTable(d: Deployment, w: World, n: NodeID, h: NodeHost, v: VolumeID,
      o: Outcome): (mounts: map<string, MountEntry>)
  {
    var here := MountPath(d, n, v);
    if !Applies(o) then h.mounts
    else
      match RpcOf(h, v)
      case StageMount(opts) =>
        if here in h.mounts then h.mounts else h.mounts[here := MountEntry(DEVICE, opts + [CfgOption(d, n, v)])]
      case UnstageUnmount => h.mounts - {here}
      case PublishBind(target) =>
        if here in h.mounts && v in w.volDirs && target !in h.mounts
        then h.mounts[target := h.mounts[here]]
        else h.mounts
      case Unpublish(target) => h.mounts - {target}
      case _ => h.mounts
  }

  function NextClientConf(h: NodeHost, v: VolumeID, o: Outcome): (conf: set<VolumeID>)
  {
    if RpcOf(h, v).StageWrite? && Applies(o) then h.clientConf + {v}
    else if RpcOf(h, v) == UnstageClean && Applies(o) then h.clientConf - {v}
    else h.clientConf
  }

  function NextLostTrack(h: NodeHost, v: VolumeID, o: Outcome): (lost: set<VolumeID>)
  {
    var rpc := RpcOf(h, v);
    if o == Ok && (rpc.StageMount? || rpc == UnstageUntrack) then h.lostTrack - {v}
    else if o != Ok && (rpc == UnstageCheck || rpc == UnstageUntrack) then h.lostTrack + {v}
    else h.lostTrack
  }

  /** Tracking files are written and removed through the staging mount, as far as the directory still exists. */
  function NextTracking(d: Deployment, w: World, n: NodeID, h: NodeHost, v: VolumeID,
      o: Outcome): (dirs: map<VolumeID, set<NodeID>>)
  {
    if RpcOf(h, v) == StageTrack then WithTrackingFile(w.nodesDirs, v, n, Mounted(d, n, h, v) && Applies(o))
    else if RpcOf(h, v) == UnstageUntrack then WithoutTrackingFile(w.nodesDirs, v, n, Applies(o))
    else w.nodesDirs
  }

  function NodeNext(d: Deployment, w: World, n: NodeID, v: VolumeID, o: Outcome): (w': World)
  {
    var h := Host(w, n);
    w.(nodesDirs := NextTracking(d, w, n, h, v, o),
       nodes := w.nodes[n := NodeHost(
         NextMountTable(d, w, n, h, v, o),
         NextClientConf(h, v, o),
         h.rpcs[v := NextRpc(d, w, n, h, v, o)],
         NextLostTrack(h, v, o))])
  }

  /** Requested mount options, as filtered by the driver: no option of theirs can name a client configuration. */
  predicate CfgFree(opts: seq<string>)
  {
    forall i :: 0 <= i < |opts| ==> !("cfgFile=" <= opts[i])
  }

  /** Target paths are chosen by the orchestrator outside the staging mount points. */
  ghost predicate TargetOk(d: Deployment, n: NodeID, target: string)
  {
    forall v: VolumeID :: target != MountPath(d, n, v)
  }

  ghost predicate RpcStart(d: Deployment, n: NodeID, rpc: Rpc)
  {
    match rpc
    case StageWrite(opts) => CfgFree(opts)
    case UnstageCheck => true
    case PublishStat(target) => TargetOk(d, n, target)
    case Unpublish(target) => TargetOk(d, n, target)
    case _ => false
  }

  ghost predicate Enabled(d: Deployment, w: World, s: Step)
  {
    match s
    case BeginRequest(r, kind, v, special) => r !in w.requests && v in d.volumes
    case ControllerStep(r, o) =>
      && r in w.requests
      && (o == GiveUp ==> w.requests[r].phase == CheckEmpty)
      && (o.Unlink? ==> w.requests[r].phase == RemoveNodesDir)
      && (o.Wipe? ==> Exposed(d, w, w.requests[r]))
      && (Exposed(d, w, w.requests[r]) ==> o != Ok)
    case BeginRpc(n, v, rpc) => v in d.volumes && RpcOf(Host(w, n), v) == Idle && RpcStart(d, n, rpc)
    case NodeStep(n, v, o) => v in d.volumes && (o == Ok || o.Fail?)
    case Restart => true
    case Reboot => true
    case RestartNode(n) => true
    case RebootNode(n) => true
  }

  /** The controller forgets its requests, locks and status; what is on disk and mounted stays. */
  function Restarted(w: World): (w': World)
  {
    w.(requests := map r | r in w.requests :: EndedByRestart(w.requests[r]),
       locks := {}, status := map[], createFailed := {}, deleteFailed := {})
  }

  /** The host of a node comes up without its mounts; files stay, on the host and in BeeGFS. */
  function Rebooted(w: World, n: NodeID): (h: NodeHost)
  {
    Host(w, n).(mounts := map[], rpcs := map[],
      lostTrack := Host(w, n).lostTrack + set v | v in w.nodesDirs && n in w.nodesDirs[v])
  }

  function EndedByRestart(q: Request): (r: Request)
  {
    if q.phase == Finished then q else q.(phase := Finished, reply := Lost)
  }

  function Apply(d: Deployment, w: World, s: Step): (w': World)
  {
    match s
    case BeginRequest(r, kind, v, special) =>
      var first := if kind == Validate then ObtainLock else ReadStatus;
      w.(requests := w.requests[r := Request(kind, v, special, first, false, NoReply, 0, 0)])
    case ControllerStep(r, o) => if r in w.requests then ControllerNext(d, w, r, o) else w
    case BeginRpc(n, v, rpc) => w.(nodes := w.nodes[n := Host(w, n).(rpcs := Host(w, n).rpcs[v := rpc])])
    case NodeStep(n, v, o) => NodeNext(d, w, n, v, o)
    case Restart => Restarted(w)
    case Reboot => Restarted(w).(mounts := {})
    case RestartNode(n) => w.(nodes := w.nodes[n := Host(w, n).(rpcs := map[])])
    case RebootNode(n) => w.(nodes := w.nodes[n := Rebooted(w, n)])
  }

  /** A step that is not enabled changes nothing. */
  ghost function Next(d: Deployment, w: World, s: Step): (w': World)
  {
    if Enabled(d, w, s) then Apply(d, w, s) else w
  }

  ghost function Run(d: Deployment, w: World, steps: seq<Step>): (w': World)
  {
    if steps == [] then w else Next(d, Run(d, w, steps[..|steps| - 1]), steps[|steps| - 1])
  }
}
