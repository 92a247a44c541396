/**
 Directories that go with somebody else's working directory: when that happens on a run, and what holds on the
 runs on which it does not.
 */
module LifecycleWipes {
  import opened ThreadSafe
  import opened Lifecycle
  import opened LifecycleController
  import opened LifecycleNodes
  import opened LifecycleWorkDirs
  import opened LifecycleTracking

  /** The step takes the volume's directory along with a working directory. */
  ghost predicate TakesDir(d: Deployment, w: World, s: Step, v: VolumeID)
  {
    && s.ControllerStep? && Enabled(d, w, s) && v in w.volDirs
    && TakesVolume(d, w, w.requests[s.r], s.outcome, v)
  }

  ghost predicate MakesDir(d: Deployment, w: World, s: Step, v: VolumeID)
  {
    && s.ControllerStep? && Enabled(d, w, s) && Applies(s.outcome)
    && w.requests[s.r].volume == v && w.requests[s.r].phase == CreateVolDir
  }

  lemma WipedNext(d: Deployment, w: World, s: Step, v: VolumeID)
    ensures v in Next(d, w, s).wiped <==> TakesDir(d, w, s, v) || (v in w.wiped && !MakesDir(d, w, s, v))
  {
  }

  ghost predicate TakesAt(d: Deployment, w: World, steps: seq<Step>, v: VolumeID, i: nat)
    requires i < |steps|
  {
    TakesDir(d, Run(d, w, steps[..i]), steps[i], v)
  }

  ghost predicate MakesAt(d: Deployment, w: World, steps: seq<Step>, v: VolumeID, i: nat)
    requires i < |steps|
  {
    MakesDir(d, Run(d, w, steps[..i]), steps[i], v)
  }

  /** The i-th step takes the directory, and no later step makes it again. */
  ghost predicate TakenAt(d: Deployment, w: World, steps: seq<Step>, v: VolumeID, i: nat)
  {
    i < |steps| && TakesAt(d, w, steps, v, i) && NotMadeAfter(d, w, steps, v, i)
  }

  ghost predicate NotMadeAfter(d: Deployment, w: World, steps: seq<Step>, v: VolumeID, i: nat)
  {
    forall j: nat :: i < j < |steps| ==> !MakesAt(d, w, steps, v, j)
  }

  lemma SameAtPrefix(d: Deployment, w: World, steps: seq<Step>, v: VolumeID, k: nat, i: nat)
    requires i < k <= |steps|
    ensures TakesAt(d, w, steps[..k], v, i) == TakesAt(d, w, steps, v, i)
    ensures MakesAt(d, w, steps[..k], v, i) == MakesAt(d, w, steps, v, i)
  {
    assert steps[..k][..i] == steps[..i];
  }

  lemma NotMadeSnoc(d: Deployment, w: World, steps: seq<Step>, v: VolumeID, i: nat)
    requires i + 1 < |steps|
    ensures
      var k := |steps| - 1;
      NotMadeAfter(d, w, steps, v, i) <==> NotMadeAfter(d, w, steps[..k], v, i) && !MakesAt(d, w, steps, v, k)
  {
    var k := |steps| - 1;
    forall j: nat | i < j < k ensures MakesAt(d, w, steps[..k], v, j) == MakesAt(d, w, steps, v, j) {
      SameAtPrefix(d, w, steps, v, k, j);
    }
  }

  lemma TakenSnoc(d: Deployment, w: World, steps: seq<Step>, v: VolumeID, i: nat)
    requires i + 1 < |steps|
    ensures
      var k := |steps| - 1;
      TakenAt(d, w, steps, v, i) <==> TakenAt(d, w, steps[..k], v, i) && !MakesAt(d, w, steps, v, k)
  {
    SameAtPrefix(d, w, steps, v, |steps| - 1, i);
    NotMadeSnoc(d, w, steps, v, i);
  }

  ghost predicate Taken(d: Deployment, w: World, steps: seq<Step>, v: VolumeID)
  {
    exists i :: TakenAt(d, w, steps, v, i)
  }

  lemma TakenStep(d: Deployment, w: World, steps: seq<Step>, v: VolumeID)
    requires steps != []
    ensures
      var k := |steps| - 1;
      Taken(d, w, steps, v)
      <==> TakesAt(d, w, steps, v, k) || (Taken(d, w, steps[..k], v) && !MakesAt(d, w, steps, v, k))
  {
    var k := |steps| - 1;
    assert TakenAt(d, w, steps, v, k) <==> TakesAt(d, w, steps, v, k);
    if i: nat :| i < k && TakenAt(d, w, steps, v, i) {
      TakenSnoc(d, w, steps, v, i);
    }
    if i: nat :| TakenAt(d, w, steps[..k], v, i) {
      TakenSnoc(d, w, steps, v, i);
    }
  }

  /** The history variable says what happened on the run. */
  lemma {:induction false} WipedExactly(d: Deployment, steps: seq<Step>, v: VolumeID)
    ensures v in Run(d, INITIAL, steps).wiped <==> Taken(d, INITIAL, steps, v)
  {
    if steps != [] {
      var k := |steps| - 1;
      WipedExactly(d, steps[..k], v);
      WipedNext(d, Run(d, INITIAL, steps[..k]), steps[k], v);
      TakenStep(d, INITIAL, steps, v);
    }
  }

  // ---- What a cached "created" is worth -------------------------------------------------------------------------

  /** The step takes the volume's directory: a delete of the volume removes it, or it goes with a working directory. */
  ghost predicate LosesDir(d: Deployment, w: World, s: Step, v: VolumeID)
  {
    || TakesDir(d, w, s, v)
    || (s.ControllerStep? && Enabled(d, w, s) && v in w.volDirs && Applies(s.outcome)
        && w.requests[s.r].volume == v && w.requests[s.r].phase == RemoveVolDir)
  }

  lemma DirNext(d: Deployment, w: World, s: Step, v: VolumeID)
    ensures v in Next(d, w, s).volDirs <==> MakesDir(d, w, s, v) || (v in w.volDirs && !LosesDir(d, w, s, v))
    ensures !(MakesDir(d, w, s, v) && LosesDir(d, w, s, v))
    ensures LosesDir(d, w, s, v) ==> v in w.volDirs
  {
  }

  ghost predicate LosesAt(d: Deployment, w: World, steps: seq<Step>, v: VolumeID, i: nat)
    requires i < |steps|
  {
    LosesDir(d, Run(d, w, steps[..i]), steps[i], v)
  }

  ghost predicate LostAt(d: Deployment, w: World, steps: seq<Step>, v: VolumeID, i: nat)
  {
    i < |steps| && LosesAt(d, w, steps, v, i) && NotMadeAfter(d, w, steps, v, i)
  }

  /** Some step took the directory, and no later step made it again. */
  ghost predicate Lost(d: Deployment, w: World, steps: seq<Step>, v: VolumeID)
  {
    exists i :: LostAt(d, w, steps, v, i)
  }

  ghost predicate EverMade(d: Deployment, w: World, steps: seq<Step>, v: VolumeID)
  {
    exists i: nat :: i < |steps| && MakesAt(d, w, steps, v, i)
  }

  lemma LostSnoc(d: Deployment, w: World, steps: seq<Step>, v: VolumeID, i: nat)
    requires i + 1 < |steps|
    ensures
      var k := |steps| - 1;
      LostAt(d, w, steps, v, i) <==> LostAt(d, w, steps[..k], v, i) && !MakesAt(d, w, steps, v, k)
  {
    var k := |steps| - 1;
    assert steps[..k][..i] == steps[..i];
    NotMadeSnoc(d, w, steps, v, i);
  }

  lemma LostStep(d: Deployment, w: World, steps: seq<Step>, v: VolumeID)
    requires steps != []
    ensures
      var k := |steps| - 1;
      Lost(d, w, steps, v) <==> LosesAt(d, w, steps, v, k) || (Lost(d, w, steps[..k], v) && !MakesAt(d, w, steps, v, k))
  {
    var k := |steps| - 1;
    assert LostAt(d, w, steps, v, k) <==> LosesAt(d, w, steps, v, k);
    forall i: nat | i < k
      ensures LostAt(d, w, steps, v, i) <==> LostAt(d, w, steps[..k], v, i) && !MakesAt(d, w, steps, v, k)
    {
      LostSnoc(d, w, steps, v, i);
    }
  }

  lemma MadeStep(d: Deployment, w: World, steps: seq<Step>, v: VolumeID)
    requires steps != []
    ensures
      var k := |steps| - 1;
      EverMade(d, w, steps, v) <==> EverMade(d, w, steps[..k], v) || MakesAt(d, w, steps, v, k)
  {
    var k := |steps| - 1;
    if i: nat :| i < k && MakesAt(d, w, steps, v, i) {
      SameAtPrefix(d, w, steps, v, k, i);
    }
    if i: nat :| i < k && MakesAt(d, w, steps[..k], v, i) {
      SameAtPrefix(d, w, steps, v, k, i);
    }
  }

  /** The directory is there exactly if it was made and not lost since. */
  lemma {:induction false} DirectoryExactly(d: Deployment, steps: seq<Step>, v: VolumeID)
    ensures v in Run(d, INITIAL, steps).volDirs <==> EverMade(d, INITIAL, steps, v) && !Lost(d, INITIAL, steps, v)
    ensures Lost(d, INITIAL, steps, v) ==> EverMade(d, INITIAL, steps, v)
  {
    if steps != [] {
      var k := |steps| - 1;
      DirectoryExactly(d, steps[..k], v);
      DirNext(d, Run(d, INITIAL, steps[..k]), steps[k], v);
      LostStep(d, INITIAL, steps, v);
      MadeStep(d, INITIAL, steps, v);
    }
  }

  /** A create of the volume has made its directory, now or earlier. */
  predicate CreatorPast(w: World, v: VolumeID)
  {
    || (v in w.status && w.status[v] == Created)
    || exists r :: r in w.requests && w.requests[r].volume == v && AfterCreation(w.requests[r].phase)
  }

  lemma CreatorPastNext(d: Deployment, w: World, s: Step, v: VolumeID)
    requires CreatorPast(Next(d, w, s), v)
    ensures CreatorPast(w, v) || MakesDir(d, w, s, v)
  {
    if Enabled(d, w, s) && s.ControllerStep? {
      CreatorPastStep(d, w, s.r, s.outcome, v);
    }
  }

  lemma CreatorPastStep(d: Deployment, w: World, r: RequestID, o: Outcome, v: VolumeID)
    requires r in w.requests && CreatorPast(ControllerNext(d, w, r, o), v)
    ensures
      CreatorPast(w, v) || (w.requests[r].volume == v && w.requests[r].phase == CreateVolDir && Applies(o))
  {
    var q, w' := w.requests[r], ControllerNext(d, w, r, o);
    if t :| t in w'.requests && w'.requests[t].volume == v && AfterCreation(w'.requests[t].phase) {
      if t == r {
        IdentityStays(w, q, o);
        if !AfterCreation(q.phase) && !(q.phase == CreateVolDir && o == Ok) {
          NotAfterCreation(w, q, o);
        }
      } else {
        assert w'.requests[t] == w.requests[t];
      }
    } else {
      assert v in w'.status && w'.status[v] == Created;
      assert q.phase == WriteCreated && q.volume == v ==> AfterCreation(q.phase);
    }
  }

  lemma NotAfterCreation(w: World, q: Request, o: Outcome)
    requires !AfterCreation(q.phase) && !(q.phase == CreateVolDir && o == Ok)
    ensures !AfterCreation(NextRequest(w, q, o).phase)
  {
  }

  lemma {:induction false} CreatedMeansMade(d: Deployment, steps: seq<Step>, v: VolumeID)
    requires CreatorPast(Run(d, INITIAL, steps), v)
    ensures EverMade(d, INITIAL, steps, v)
  {
    if steps != [] {
      var k := |steps| - 1;
      CreatorPastNext(d, Run(d, INITIAL, steps[..k]), steps[k], v);
      MadeStep(d, INITIAL, steps, v);
      if CreatorPast(Run(d, INITIAL, steps[..k]), v) {
        CreatedMeansMade(d, steps[..k], v);
      }
    }
  }

  /**
   Over every run, whoever holds the lock and whatever has failed: a cached "created" is wrong exactly if some
   step has taken the directory, of a delete or along with a working directory, and none has made it again.
   */
  lemma CachedCreatedIsRightExactly(d: Deployment, steps: seq<Step>, v: VolumeID)
    requires var w := Run(d, INITIAL, steps); v in w.status && w.status[v] == Created
    ensures v in Run(d, INITIAL, steps).volDirs <==> !Lost(d, INITIAL, steps, v)
  {
    CreatedMeansMade(d, steps, v);
    DirectoryExactly(d, steps, v);
  }

  /**
   Of these, without a failed delete and without one past its removal, it can only be the second: the directory
   has gone with a working directory.
   */
  lemma CachedCreatedIsWipedExactly(d: Deployment, steps: seq<Step>, v: VolumeID)
    requires
      var w := Run(d, INITIAL, steps);
      v in w.status && w.status[v] == Created && v !in w.deleteFailed && !DeleteUnderWay(w, v)
    ensures v in Run(d, INITIAL, steps).volDirs <==> !Taken(d, INITIAL, steps, v)
  {
    CacheAgrees(d, steps, v);
    WipedExactly(d, steps, v);
  }

  /**
   The last step of a Validate leaves a volume's directory alone, whatever happens, exactly if the volume's file
   system is not mounted in the working directory.
   */
  lemma ValidateKeepsVolumeExactly(d: Deployment, w: World, r: RequestID, v: VolumeID)
    requires r in w.requests && At(w, r, Validate, w.requests[r].volume, RemoveWorkDir) && v in w.volDirs
    ensures
      (forall o :: Enabled(d, w, ControllerStep(r, o)) ==> v in ControllerNext(d, w, r, o).volDirs)
      <==> !(WorkMount(d, w.requests[r].volume) in w.mounts && SameFs(v, w.requests[r].volume))
  {
    if WorkMount(d, w.requests[r].volume) in w.mounts && SameFs(v, w.requests[r].volume) {
      assert Enabled(d, w, ControllerStep(r, Fail(true)));
      assert v !in ControllerNext(d, w, r, Fail(true)).volDirs;
    }
  }

  /** On the run, no Validate removes its working directory with the file system of this volume mounted inside. */
  ghost predicate NoLeftovers(d: Deployment, steps: seq<Step>, v: VolumeID)
  {
    forall i: nat :: i < |steps| ==> !LeftoverRemoved(d, Run(d, INITIAL, steps[..i]), steps[i], v)
  }

  predicate LeftoverRemoved(d: Deployment, w: World, s: Step, v: VolumeID)
  {
    Wipes(d, w, s, v) && w.requests[s.r].kind == Validate
  }

  /** On such runs nothing of the volume is ever wiped. */
  lemma NothingWiped(d: Deployment, steps: seq<Step>, v: VolumeID, i: nat)
    requires GoodDeployment(d) && NoLeftovers(d, steps, v) && i < |steps|
    ensures !Wipes(d, Run(d, INITIAL, steps[..i]), steps[i], v)
  {
    assert !LeftoverRemoved(d, Run(d, INITIAL, steps[..i]), steps[i], v);
    if steps[i].ControllerStep? {
      OnlyValidateIsExposed(d, steps[..i], steps[i].r);
    }
  }

  /**
   Over every run without such a removal, whoever holds the lock, the cache is right about the directory unless
   a request of the opposite kind has failed since or is under way.
   */
  lemma CacheAgreesWithoutLeftovers(d: Deployment, steps: seq<Step>, v: VolumeID)
    requires GoodDeployment(d) && NoLeftovers(d, steps, v)
    ensures
      var w := Run(d, INITIAL, steps);
      v in w.status ==>
        && (w.status[v] == Created && v !in w.deleteFailed && !DeleteUnderWay(w, v) ==> v in w.volDirs)
        && (w.status[v] == Deleted && v !in w.createFailed && !CreateUnderWay(w, v) ==> v !in w.volDirs)
  {
    CacheAgrees(d, steps, v);
    NeverTaken(d, steps, v);
  }

  lemma NeverTaken(d: Deployment, steps: seq<Step>, v: VolumeID)
    requires GoodDeployment(d) && NoLeftovers(d, steps, v)
    ensures v !in Run(d, INITIAL, steps).wiped
  {
    WipedExactly(d, steps, v);
    forall i: nat | i < |steps| ensures !TakenAt(d, INITIAL, steps, v, i) {
      NothingWiped(d, steps, v, i);
    }
  }

  /** Over every run without such a removal, a request reports success under its lock only if the directory says so. */
  lemma SuccessIsTrueWithoutLeftovers(d: Deployment, steps: seq<Step>, r: RequestID)
    requires GoodDeployment(d)
    requires var w := Run(d, INITIAL, steps); r in w.requests && NoLeftovers(d, steps, w.requests[r].volume)
    ensures
      var w := Run(d, INITIAL, steps);
      w.requests[r].phase == ReleaseLock && !w.requests[r].failed ==>
        (w.requests[r].volume in w.volDirs <==> w.requests[r].kind != Delete)
  {
    SuccessIsTrue(d, steps, r);
    NeverTaken(d, steps, Run(d, INITIAL, steps).requests[r].volume);
  }

  /**
   Orphan prevention on whole runs: a node writes its tracking file while no delete is removing the directory,
   and later a delete passes the empty test. If no other delete gives up in between and no Validate wipes the
   file system, the node has begun to unstage.
   */
  lemma OrphanPrevention(d: Deployment, before: seq<Step>, steps: seq<Step>, s: Step, n: NodeID, v: VolumeID)
    returns (i: nat)
    requires GoodDeployment(d) && v in d.volumes
    requires NoLeftovers(d, Written(before, n, v) + steps, v)
    requires PassesEmptyTest(d, Run(d, Run(d, INITIAL, Written(before, n, v)), steps), s, v)
    requires NoOtherGivesUp(d, Run(d, INITIAL, Written(before, n, v)), steps, v, s.r)
    requires
      var w := Run(d, INITIAL, before);
      RpcOf(Host(w, n), v) == StageTrack && v in w.nodesDirs && !OtherRemoving(w, v, s.r)
    ensures i < |steps| && steps[i] == BeginRpc(n, v, UnstageCheck)
    ensures Enabled(d, Run(d, Run(d, INITIAL, Written(before, n, v)), steps[..i]), steps[i])
  {
    WrittenRun(d, before, n, v);
    CanWrite(d, before, n, v);
    i := SingleDeleteWaits(d, Run(d, INITIAL, before), steps, s, n, v);
    WipesNothing(d, Written(before, n, v), steps, v, i);
    RunSplits(d, INITIAL, Written(before, n, v), steps[..i]);
  }

  /** The run up to the point at which the node has written its file. */
  function Written(before: seq<Step>, n: NodeID, v: VolumeID): (steps: seq<Step>)
  {
    before + [NodeStep(n, v, Ok)]
  }

  lemma WrittenRun(d: Deployment, before: seq<Step>, n: NodeID, v: VolumeID)
    ensures Run(d, INITIAL, Written(before, n, v)) == Next(d, Run(d, INITIAL, before), NodeStep(n, v, Ok))
  {
    assert Written(before, n, v)[..|before|] == before;
  }

  /** A node that has come as far as writing its file has the volume mounted. */
  lemma CanWrite(d: Deployment, before: seq<Step>, n: NodeID, v: VolumeID)
    requires GoodDeployment(d)
    requires var w := Run(d, INITIAL, before); RpcOf(Host(w, n), v) == StageTrack && v in w.nodesDirs
    ensures Writes(d, Run(d, INITIAL, before), n, v)
  {
    NodesOkAlways(d, before);
    var h := Host(Run(d, INITIAL, before), n);
    assert HostOk(d, n, h) && VolumeOk(d, n, h, v);
  }

  lemma WipesNothing(d: Deployment, before: seq<Step>, steps: seq<Step>, v: VolumeID, i: nat)
    requires GoodDeployment(d) && NoLeftovers(d, before + steps, v) && i < |steps|
    ensures !Wipes(d, Run(d, INITIAL, before + steps[..i]), steps[i], v)
  {
    var all, k := before + steps, |before| + i;
    assert all[..k] == before + steps[..i] && all[k] == steps[i];
    NothingWiped(d, all, v, k);
  }
}
