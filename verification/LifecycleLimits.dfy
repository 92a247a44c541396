/**
 Where the guarantees of the lifecycle end: each lemma exhibits, from every state of a whole class, a run
 that leaves them.
 */
module LifecycleLimits {
  import opened GoStrings
  import opened ThreadSafe
  import opened Lifecycle
  import opened LifecycleNodes
  import opened LifecycleTracking

  ghost predicate Reaches(d: Deployment, w: World, w': World)
  {
    exists steps :: Run(d, w, steps) == w'
  }

  lemma Stay(d: Deployment, w: World)
    ensures Reaches(d, w, w)
  {
    assert Run(d, w, []) == w;
  }

  lemma Go(d: Deployment, w0: World, w: World, s: Step) returns (w': World)
    requires Reaches(d, w0, w) && Enabled(d, w, s)
    ensures Reaches(d, w0, w') && w' == Apply(d, w, s)
  {
    var steps :| Run(d, w0, steps) == w;
    var longer := steps + [s];
    assert longer[..|longer| - 1] == steps;
    w' := Apply(d, w, s);
    assert Run(d, w0, longer) == w';
  }

  /** A request takes a step with this outcome. */
  lemma Take(d: Deployment, w0: World, w: World, r: RequestID, o: Outcome) returns (w': World)
    requires Reaches(d, w0, w) && Enabled(d, w, ControllerStep(r, o))
    ensures Reaches(d, w0, w') && w' == ControllerNext(d, w, r, o)
  {
    w' := Go(d, w0, w, ControllerStep(r, o));
  }

  predicate SameOnDisk(w: World, w': World)
  {
    w'.status == w.status && w'.volDirs == w.volDirs && w'.nodesDirs == w.nodesDirs && w'.nodes == w.nodes
  }

  lemma CannotList(d: Deployment, w0: World, w: World, r: RequestID, kind: Kind, v: VolumeID) returns (w': World)
    requires Reaches(d, w0, w) && kind != Validate && At(w, r, kind, v, ListMounts) && w.requests[r].failed
    ensures Reaches(d, w0, w') && SameOnDisk(w, w') && At(w', r, kind, v, ReleaseLock) && w'.requests[r].failed
    ensures w'.requests == w.requests[r := w'.requests[r]]
  {
    w' := Take(d, w0, w, r, Fail(false));
  }

  lemma ReleasesFailed(d: Deployment, w0: World, w: World, r: RequestID, kind: Kind, v: VolumeID) returns (w': World)
    requires Reaches(d, w0, w) && At(w, r, kind, v, ReleaseLock) && w.requests[r].failed
    ensures Reaches(d, w0, w') && SameOnDisk(w, w') && v !in w'.locks && r in w'.requests
    ensures w'.requests[r].reply == Failure
    ensures w'.requests == w.requests[r := w'.requests[r]]
  {
    w' := Take(d, w0, w, r, Ok);
  }

  /** Whatever has failed, the cleanup runs to the release of the lock and changes nothing else that counts. */
  lemma FailedEnds(d: Deployment, w0: World, w: World, r: RequestID, kind: Kind, v: VolumeID) returns (w': World)
    requires Reaches(d, w0, w) && kind != Validate && At(w, r, kind, v, ListMounts) && w.requests[r].failed
    ensures Reaches(d, w0, w') && SameOnDisk(w, w') && v !in w'.locks
    ensures w'.requests.Keys == w.requests.Keys && w'.requests[r].reply == Failure
    ensures w'.requests == w.requests[r := w'.requests[r]]
  {
    w' := CannotList(d, w0, w, r, kind, v);
    w' := ReleasesFailed(d, w0, w', r, kind, v);
  }

  lemma BeginFresh(d: Deployment, w0: World, w: World, kind: Kind, v: VolumeID) returns (r: RequestID, w': World)
    requires Reaches(d, w0, w) && kind != Validate && v in d.volumes
    ensures Reaches(d, w0, w') && SameOnDisk(w, w') && w'.locks == w.locks && At(w', r, kind, v, ReadStatus)
    ensures !w'.requests[r].failed
  {
    r := FreshID(w.requests.Keys);
    w' := Go(d, w0, w, BeginRequest(r, kind, v, false));
  }

  lemma {:induction false} FreshID(used: set<RequestID>) returns (r: RequestID)
    ensures r !in used && forall s :: s in used ==> s < r
  {
    if used == {} {
      r := 0;
    } else {
      var s :| s in used;
      var bound := FreshID(used - {s});
      r := if s < bound then bound else s + 1;
      assert forall t :: t in used ==> t == s || t in used - {s};
    }
  }

  lemma DeleteFails(d: Deployment, w0: World, w: World, r: RequestID, v: VolumeID) returns (w': World)
    requires Reaches(d, w0, w) && At(w, r, Delete, v, RemoveVolDir)
    ensures Reaches(d, w0, w') && At(w', r, Delete, v, ListMounts) && w'.requests[r].failed
    ensures v !in w'.volDirs && w'.status == w.status
  {
    w' := Take(d, w0, w, r, Fail(true));
  }

  lemma CreateFails(d: Deployment, w0: World, w: World, r: RequestID, v: VolumeID) returns (w': World)
    requires Reaches(d, w0, w) && At(w, r, Create, v, CreateVolDir)
    ensures Reaches(d, w0, w') && At(w', r, Create, v, ListMounts) && w'.requests[r].failed
    ensures v in w'.volDirs && w'.status == w.status
  {
    w' := Take(d, w0, w, r, Fail(true));
  }

  // ---- The status cache -------------------------------------------------------------------------------------

  /**
   From every delete that is about to remove a volume known as created: its failure leads to a CreateVolume that
   succeeds without a directory.
   */
  lemma FailedDeleteMisleads(d: Deployment, w: World, r: RequestID, v: VolumeID) returns (r': RequestID, w': World)
    requires v in d.volumes && At(w, r, Delete, v, RemoveVolDir) && v in w.status && w.status[v] == Created
    ensures Reaches(d, w, w') && v !in w'.locks && v in w'.status && w'.status[v] == Created && v !in w'.volDirs
    ensures At(w', r', Create, v, Finished) && w'.requests[r'].reply == Success
  {
    Stay(d, w);
    var w1 := DeleteFails(d, w, w, r, v);
    var w2 := FailedEnds(d, w, w1, r, Delete, v);
    var w3;
    r', w3 := BeginFresh(d, w, w2, Create, v);
    w' := Take(d, w, w3, r', Ok);
  }

  /**
   From every create that is about to make a volume known as deleted: its failure leads to a DeleteVolume that
   succeeds with the directory in place.
   */
  lemma FailedCreateMisleads(d: Deployment, w: World, r: RequestID, v: VolumeID) returns (r': RequestID, w': World)
    requires v in d.volumes && At(w, r, Create, v, CreateVolDir) && v in w.status && w.status[v] == Deleted
    ensures Reaches(d, w, w') && v !in w'.locks && v in w'.status && w'.status[v] == Deleted && v in w'.volDirs
    ensures At(w', r', Delete, v, Finished) && w'.requests[r'].reply == Success
  {
    Stay(d, w);
    var w1 := CreateFails(d, w, w, r, v);
    var w2 := FailedEnds(d, w, w1, r, Create, v);
    var w3;
    r', w3 := BeginFresh(d, w, w2, Delete, v);
    w' := Take(d, w, w3, r', Ok);
  }

  // ---- Giving up ----------------------------------------------------------------------------------------------

  predicate TowardsTest(p: Phase)
  {
    p == MakeWorkDir || p == WriteClientFiles || p == MountForDelete || p == CheckNodesDir
  }

  function NearerTest(p: Phase): (p': Phase)
  {
    if p == MakeWorkDir then WriteClientFiles else if p == WriteClientFiles then MountForDelete
    else if p == MountForDelete then CheckNodesDir else CheckEmpty
  }

  lemma DeleteAdvances(d: Deployment, w0: World, w: World, r: RequestID, v: VolumeID, p: Phase) returns (w': World)
    requires Reaches(d, w0, w) && At(w, r, Delete, v, p) && TowardsTest(p) && v in w.nodesDirs
    ensures Reaches(d, w0, w') && At(w', r, Delete, v, NearerTest(p)) && SameOnDisk(w, w')
  {
    w' := Take(d, w0, w, r, Ok);
  }

  lemma DeleteGetsLock(d: Deployment, w0: World, w: World, v: VolumeID) returns (r: RequestID, w': World)
    requires Reaches(d, w0, w) && v in d.volumes && v !in w.locks && !(v in w.status && w.status[v] == Deleted)
    ensures Reaches(d, w0, w') && At(w', r, Delete, v, MakeWorkDir) && SameOnDisk(w, w')
  {
    var w1;
    r, w1 := BeginFresh(d, w0, w, Delete, v);
    var w2 := Take(d, w0, w1, r, Ok);
    assert At(w2, r, Delete, v, ObtainLock) && SameOnDisk(w, w2) && w2.locks == w.locks;
    w' := Take(d, w0, w2, r, Ok);
  }

  /** A new delete works its way to the empty test. */
  lemma DeleteReachesTest(d: Deployment, w0: World, w: World, v: VolumeID) returns (r: RequestID, w': World)
    requires Reaches(d, w0, w) && v in d.volumes && v !in w.locks && v in w.nodesDirs
    requires !(v in w.status && w.status[v] == Deleted)
    ensures Reaches(d, w0, w') && At(w', r, Delete, v, CheckEmpty) && SameOnDisk(w, w')
  {
    r, w' := DeleteGetsLock(d, w0, w, v);
    w' := DeleteAdvances(d, w0, w', r, v, MakeWorkDir);
    w' := DeleteAdvances(d, w0, w', r, v, WriteClientFiles);
    w' := DeleteAdvances(d, w0, w', r, v, MountForDelete);
    w' := DeleteAdvances(d, w0, w', r, v, CheckNodesDir);
  }

  lemma {:induction false} UnlinkAll(d: Deployment, w0: World, w: World, r: RequestID, v: VolumeID) returns (w': World)
    requires Reaches(d, w0, w) && At(w, r, Delete, v, RemoveNodesDir) && v in w.nodesDirs
    ensures Reaches(d, w0, w') && At(w', r, Delete, v, RemoveNodesDir) && w'.nodes == w.nodes && w'.status == w.status
    ensures v in w'.nodesDirs && w'.nodesDirs[v] == {}
    decreases w.nodesDirs[v]
  {
    if w.nodesDirs[v] == {} {
      w' := w;
    } else {
      var n :| n in w.nodesDirs[v];
      var w1 := Take(d, w0, w, r, Unlink(n));
      assert w1.nodesDirs[v] == w.nodesDirs[v] - {n};
      w' := UnlinkAll(d, w0, w1, r, v);
    }
  }

  lemma GivesUpWaiting(d: Deployment, w0: World, w: World, r: RequestID, v: VolumeID) returns (w': World)
    requires Reaches(d, w0, w) && At(w, r, Delete, v, CheckEmpty) && v in w.nodesDirs
    ensures Reaches(d, w0, w') && At(w', r, Delete, v, RemoveNodesDir) && SameOnDisk(w, w')
  {
    w' := Take(d, w0, w, r, GiveUp);
  }

  lemma FailsRemoving(d: Deployment, w0: World, w: World, r: RequestID, v: VolumeID) returns (w': World)
    requires Reaches(d, w0, w) && At(w, r, Delete, v, RemoveNodesDir)
    ensures Reaches(d, w0, w') && At(w', r, Delete, v, ListMounts) && SameOnDisk(w, w') && w'.requests[r].failed
  {
    w' := Take(d, w0, w, r, Fail(false));
  }

  lemma RemovalFails(d: Deployment, w0: World, w: World, r: RequestID, v: VolumeID) returns (w': World)
    requires Reaches(d, w0, w) && At(w, r, Delete, v, RemoveNodesDir) && v in w.nodesDirs
    ensures Reaches(d, w0, w') && w'.nodes == w.nodes && w'.status == w.status && v !in w'.locks
    ensures v in w'.nodesDirs && w'.nodesDirs[v] == {}
  {
    w' := UnlinkAll(d, w0, w, r, v);
    w' := FailsRemoving(d, w0, w', r, v);
    w' := FailedEnds(d, w0, w', r, Delete, v);
  }

  /**
   From every state in which a delete is removing the tracking directory: a retry passes the empty test
   although no node has done anything, not even one that wrote its file just now.
   */
  lemma RemovalLosesTrack(d: Deployment, w0: World, w: World, r: RequestID, v: VolumeID)
    returns (r': RequestID, w': World)
    requires Reaches(d, w0, w) && v in d.volumes && At(w, r, Delete, v, RemoveNodesDir) && v in w.nodesDirs
    requires !(v in w.status && w.status[v] == Deleted)
    ensures Reaches(d, w0, w') && w'.nodes == w.nodes && PassesEmptyTest(d, w', ControllerStep(r', Ok), v)
  {
    w' := RemovalFails(d, w0, w, r, v);
    r', w' := DeleteReachesTest(d, w0, w', v);
  }

  /** The same from every state in which a delete gives up on nodes that are still there. */
  lemma GivingUpLosesTrack(d: Deployment, w: World, r: RequestID, v: VolumeID) returns (r': RequestID, w': World)
    requires v in d.volumes && At(w, r, Delete, v, CheckEmpty) && v in w.nodesDirs && w.nodesDirs[v] != {}
    requires !(v in w.status && w.status[v] == Deleted)
    ensures Reaches(d, w, w') && w'.nodes == w.nodes && PassesEmptyTest(d, w', ControllerStep(r', Ok), v)
  {
    Stay(d, w);
    w' := GivesUpWaiting(d, w, w, r, v);
    r', w' := RemovalLosesTrack(d, w, w', r, v);
  }

  // ---- Bind mounts the scan does not see ------------------------------------------------------------------------

  predicate SameMounts(w: World, w': World, n: NodeID)
  {
    Host(w', n).mounts == Host(w, n).mounts && Host(w', n).clientConf == Host(w, n).clientConf
  }

  predicate Doing(w: World, n: NodeID, v: VolumeID, rpc: Rpc)
  {
    RpcOf(Host(w, n), v) == rpc
  }

  /** Nothing of the controller has changed. */
  predicate SameController(w: World, w': World)
  {
    w'.requests == w.requests && w'.locks == w.locks && w'.status == w.status
    && w'.deleteFailed == w.deleteFailed && w'.mounts == w.mounts
  }

  /** One successful step of an RPC. */
  lemma Act(d: Deployment, w0: World, w: World, n: NodeID, v: VolumeID, rpc: Rpc) returns (w': World)
    requires Reaches(d, w0, w) && v in d.volumes && Doing(w, n, v, rpc)
    ensures Reaches(d, w0, w') && Doing(w', n, v, NextRpc(d, w, n, Host(w, n), v, Ok)) && w'.volDirs == w.volDirs
    ensures Host(w', n).mounts == NextMountTable(d, w, n, Host(w, n), v, Ok)
    ensures Host(w', n).clientConf == NextClientConf(Host(w, n), v, Ok)
    ensures w'.nodesDirs == NextTracking(d, w, n, Host(w, n), v, Ok) && SameController(w, w')
  {
    w' := Go(d, w0, w, NodeStep(n, v, Ok));
  }

  lemma Begin(d: Deployment, w0: World, w: World, n: NodeID, v: VolumeID, rpc: Rpc) returns (w': World)
    requires Reaches(d, w0, w) && v in d.volumes && Doing(w, n, v, Idle) && RpcStart(d, n, rpc)
    ensures Reaches(d, w0, w') && Doing(w', n, v, rpc) && SameMounts(w, w', n) && w'.volDirs == w.volDirs
    ensures w'.nodesDirs == w.nodesDirs
    ensures SameController(w, w')
  {
    w' := Go(d, w0, w, BeginRpc(n, v, rpc));
  }

  lemma ScanRefuses(d: Deployment, n: NodeID, h: NodeHost, v: VolumeID, p: string)
    requires Published(d, n, h, v, p)
    ensures RefusesUnmount(h.mounts, Exclude(d, n, v), ConfPath(d, n, v))
  {
    PublishedLooksBound(d, n, h, v, p);
  }

  lemma FindsTrackingFile(d: Deployment, w0: World, w: World, n: NodeID, v: VolumeID) returns (w': World)
    requires Reaches(d, w0, w) && v in d.volumes && Doing(w, n, v, Idle) && Tracked(w, n, v)
    requires Mounted(d, n, Host(w, n), v)
    ensures Reaches(d, w0, w') && Doing(w', n, v, UnstageUntrack) && SameMounts(w, w', n)
  {
    w' := Begin(d, w0, w, n, v, UnstageCheck);
    w' := Act(d, w0, w', n, v, UnstageCheck);
  }

  /**
   From every state with a published volume: unstaging it is refused and leaves the mounts alone, but the node's
   tracking file is gone.
   */
  lemma RefusedUnstageUntracks(d: Deployment, w: World, n: NodeID, v: VolumeID, p: string) returns (w': World)
    requires v in d.volumes && Doing(w, n, v, Idle) && Tracked(w, n, v)
    requires Mounted(d, n, Host(w, n), v) && Published(d, n, Host(w, n), v, p)
    ensures Reaches(d, w, w') && Doing(w', n, v, Idle) && !Tracked(w', n, v) && SameMounts(w, w', n)
  {
    Stay(d, w);
    ScanRefuses(d, n, Host(w, n), v, p);
    w' := FindsTrackingFile(d, w, w, n, v);
    w' := Act(d, w, w', n, v, UnstageUntrack);
    assert Doing(w', n, v, UnstageList) && SameMounts(w, w', n) && !Tracked(w', n, v);
    w' := Act(d, w, w', n, v, UnstageList);
  }

  lemma {:induction false} BaseNameEnds(s: string)
    ensures |BaseName(s)| <= |s| && s[|s| - |BaseName(s)|..] == BaseName(s)
  {
    if !(s == "" || s[|s| - 1] == '/') {
      BaseNameEnds(s[..|s| - 1]);
    }
  }

  lemma StagingMountExcluded(d: Deployment, n: NodeID, v: VolumeID)
    ensures Contains(MountPath(d, n, v), Exclude(d, n, v))
  {
    var s := d.staging(n, v);
    BaseNameEnds(s);
    var k := |s| - |BaseName(s)|;
    assert MountPath(d, n, v) == s[..k] + Exclude(d, n, v) + "";
    ContainsInside(s[..k], Exclude(d, n, v), "");
  }

  predicate TowardsDir(p: Phase)
  {
    p == MakeWorkDir || p == WriteClientFiles || p == CreateVolDir
  }

  function NearerDir(p: Phase): (p': Phase)
  {
    if p == MakeWorkDir then WriteClientFiles else if p == WriteClientFiles then CreateVolDir else SetPattern
  }

  lemma CreateAdvances(d: Deployment, w0: World, w: World, r: RequestID, v: VolumeID, p: Phase) returns (w': World)
    requires Reaches(d, w0, w) && At(w, r, Create, v, p) && TowardsDir(p)
    ensures Reaches(d, w0, w') && At(w', r, Create, v, NearerDir(p)) && w'.nodesDirs == w.nodesDirs
    ensures w'.nodes == w.nodes
    ensures p == CreateVolDir ==> v in w'.volDirs
  {
    w' := Take(d, w0, w, r, Ok);
  }

  lemma CreateGetsLock(d: Deployment, v: VolumeID) returns (r: RequestID, w: World)
    requires v in d.volumes
    ensures Reaches(d, INITIAL, w) && At(w, r, Create, v, MakeWorkDir) && w.nodesDirs == map[] && w.nodes == map[]
  {
    Stay(d, INITIAL);
    var w1;
    r, w1 := BeginFresh(d, INITIAL, INITIAL, Create, v);
    var w2 := Take(d, INITIAL, w1, r, Ok);
    assert At(w2, r, Create, v, ObtainLock) && w2.locks == {};
    w := Take(d, INITIAL, w2, r, Ok);
  }

  /** A volume that no node has seen yet, and whose tracking directory does not exist yet. */
  lemma SomeVolume(d: Deployment, v: VolumeID) returns (w: World)
    requires v in d.volumes
    ensures Reaches(d, INITIAL, w) && v in w.volDirs && w.nodesDirs == map[] && w.nodes == map[]
  {
    var r;
    r, w := CreateGetsLock(d, v);
    w := CreateAdvances(d, INITIAL, w, r, v, MakeWorkDir);
    w := CreateAdvances(d, INITIAL, w, r, v, WriteClientFiles);
    w := CreateAdvances(d, INITIAL, w, r, v, CreateVolDir);
  }

  function FreshMount(d: Deployment, n: NodeID, v: VolumeID): (e: MountEntry)
  {
    MountEntry(DEVICE, [CfgOption(d, n, v)])
  }

  lemma StageChecks(d: Deployment, n: NodeID, v: VolumeID) returns (w: World)
    requires v in d.volumes
    ensures Reaches(d, INITIAL, w) && v in w.volDirs && Doing(w, n, v, StageMount([])) && v !in w.nodesDirs
    ensures Host(w, n).mounts == map[]
  {
    w := SomeVolume(d, v);
    w := Begin(d, INITIAL, w, n, v, StageWrite([]));
    assert Host(w, n).mounts == map[];
    w := Act(d, INITIAL, w, n, v, StageWrite([]));
    assert Doing(w, n, v, StageStat([]));
    w := Act(d, INITIAL, w, n, v, StageStat([]));
  }

  lemma StageOnly(d: Deployment, n: NodeID, v: VolumeID) returns (w: World)
    requires v in d.volumes
    ensures Reaches(d, INITIAL, w) && v in w.volDirs && Doing(w, n, v, Idle) && v !in w.nodesDirs
    ensures Host(w, n).mounts == map[MountPath(d, n, v) := FreshMount(d, n, v)]
  {
    w := StageChecks(d, n, v);
    assert [] + [CfgOption(d, n, v)] == [CfgOption(d, n, v)];
    w := Act(d, INITIAL, w, n, v, StageMount([]));
    assert Doing(w, n, v, StageCheckDir) && v !in w.nodesDirs;
    w := Act(d, INITIAL, w, n, v, StageCheckDir);
  }

  lemma PublishChecks(d: Deployment, w0: World, w: World, n: NodeID, v: VolumeID, p: string) returns (w': World)
    requires Reaches(d, w0, w) && v in d.volumes && TargetOk(d, n, p) && Doing(w, n, v, Idle) && v in w.volDirs
    requires p !in Host(w, n).mounts
    ensures Reaches(d, w0, w') && Doing(w', n, v, PublishBind(p)) && SameMounts(w, w', n)
    ensures w'.volDirs == w.volDirs && w'.nodesDirs == w.nodesDirs
  {
    w' := Begin(d, w0, w, n, v, PublishStat(p));
    w' := Act(d, w0, w', n, v, PublishStat(p));
    assert Doing(w', n, v, PublishCheck(p));
    w' := Act(d, w0, w', n, v, PublishCheck(p));
  }

  lemma PublishOnly(d: Deployment, n: NodeID, v: VolumeID, p: string) returns (w: World)
    requires v in d.volumes && TargetOk(d, n, p)
    ensures Reaches(d, INITIAL, w) && Doing(w, n, v, Idle) && v !in w.nodesDirs
    ensures Host(w, n).mounts == map[MountPath(d, n, v) := FreshMount(d, n, v), p := FreshMount(d, n, v)]
  {
    w := StageOnly(d, n, v);
    w := PublishChecks(d, INITIAL, w, n, v, p);
    w := Act(d, INITIAL, w, n, v, PublishBind(p));
  }

  /** Neither the staging mount nor such a target stands in the way of an unmount. */
  lemma HiddenFromScan(d: Deployment, n: NodeID, v: VolumeID, p: string, mounts: map<string, MountEntry>)
    requires Contains(p, Exclude(d, n, v)) && mounts.Keys == {MountPath(d, n, v), p}
    ensures !RefusesUnmount(mounts, Exclude(d, n, v), ConfPath(d, n, v))
  {
    StagingMountExcluded(d, n, v);
  }

  lemma UnstageChecks(d: Deployment, w0: World, w: World, n: NodeID, v: VolumeID) returns (w': World)
    requires Reaches(d, w0, w) && v in d.volumes && Doing(w, n, v, Idle) && v !in w.nodesDirs
    requires !RefusesUnmount(Host(w, n).mounts, Exclude(d, n, v), ConfPath(d, n, v))
    ensures Reaches(d, w0, w') && Doing(w', n, v, UnstageUnmount) && SameMounts(w, w', n)
  {
    w' := Begin(d, w0, w, n, v, UnstageCheck);
    w' := Act(d, w0, w', n, v, UnstageCheck);
    assert Doing(w', n, v, UnstageList) && SameMounts(w, w', n);
    w' := Act(d, w0, w', n, v, UnstageList);
  }

  lemma HiddenTargetEscapes(d: Deployment, n: NodeID, v: VolumeID, p: string) returns (w: World)
    requires v in d.volumes && TargetOk(d, n, p) && Contains(p, Exclude(d, n, v))
    ensures Reaches(d, INITIAL, w) && BoundAt(d, n, Host(w, n), v, p) && !Mounted(d, n, Host(w, n), v)
  {
    w := PublishOnly(d, n, v, p);
    HiddenFromScan(d, n, v, p, Host(w, n).mounts);
    w := UnstageChecks(d, INITIAL, w, n, v);
    w := Act(d, INITIAL, w, n, v, UnstageUnmount);
  }

  /**
   Some run leaves a bind mount of the volume at this target without its staging mount and client
   configuration, exactly if the target path contains the string that the scan leaves out.
   */
  lemma EscapesExactly(d: Deployment, n: NodeID, v: VolumeID, p: string)
    requires GoodDeployment(d) && v in d.volumes && TargetOk(d, n, p)
    ensures
      (exists w :: Reaches(d, INITIAL, w) && BoundAt(d, n, Host(w, n), v, p) && !Staged(d, n, Host(w, n), v))
      <==> Contains(p, Exclude(d, n, v))
  {
    if Contains(p, Exclude(d, n, v)) {
      var w := HiddenTargetEscapes(d, n, v, p);
    } else {
      forall w | Reaches(d, INITIAL, w) && BoundAt(d, n, Host(w, n), v, p) ensures Staged(d, n, Host(w, n), v) {
        var steps :| Run(d, INITIAL, steps) == w;
        PublishedImpliesStaged(d, steps, n, v, p);
      }
    }
  }
}
