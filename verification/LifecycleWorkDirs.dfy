/**
 Working directories on the controller's host: each request that holds a lock has one to itself, so that
 the cleanup of one request never takes the client files or the mount of another.
 */
module LifecycleWorkDirs {
  import opened VolumePaths
  import opened Lifecycle
  import opened LifecycleController
  import VolumeIDs

  lemma WorkDirsApart(d: Deployment, u: VolumeID, v: VolumeID, p: Path)
    requires GoodDeployment(d) && u in d.volumes && v in d.volumes && u != v && WorkDir(d, v) <= p
    ensures !(WorkDir(d, u) <= p)
  {
    VolumeIDs.SanitizeIsInjective(u, v, d.sha1, d.volumes);
    var k := |d.csDataDir|;
    assert p[k] == WorkDir(d, v)[k] != WorkDir(d, u)[k];
  }

  /** No two requests between obtaining and releasing their locks share or nest their working directories. */
  lemma HoldersHaveOwnWorkDirs(d: Deployment, steps: seq<Step>, r: RequestID, s: RequestID)
    requires GoodDeployment(d) && r != s
    ensures
      var w := Run(d, INITIAL, steps);
      r in w.requests && s in w.requests && Holds(w.requests[r]) && Holds(w.requests[s]) ==>
        !Related(WorkDir(d, w.requests[r].volume), WorkDir(d, w.requests[s].volume))
  {
    var w := Run(d, INITIAL, steps);
    LockDiscipline(d, steps);
    if r in w.requests && s in w.requests && Holds(w.requests[r]) && Holds(w.requests[s]) {
      var u, v := w.requests[r].volume, w.requests[s].volume;
      WorkDirsApart(d, u, v, WorkDir(d, v));
      WorkDirsApart(d, v, u, WorkDir(d, u));
    }
  }

  ghost predicate SameUnder(w: World, w': World, dir: Path)
  {
    forall p :: dir <= p ==> (p in w'.files <==> p in w.files) && (p in w'.mounts <==> p in w.mounts)
  }

  /** A request touches only what is under its own working directory. */
  lemma StepStaysInWorkDir(d: Deployment, w: World, q: Request, o: Outcome, p: Path)
    requires !(WorkDir(d, q.volume) <= p)
    ensures (p in NextFiles(d, w, q, o) <==> p in w.files) && (p in NextMounts(d, w, q, o) <==> p in w.mounts)
  {
    assert WorkDir(d, q.volume) <= WorkConf(d, q.volume) && WorkDir(d, q.volume) <= WorkMount(d, q.volume);
  }

  lemma StepWithoutLock(d: Deployment, w: World, q: Request, o: Outcome)
    requires !Holds(q)
    ensures NextFiles(d, w, q, o) == w.files && NextMounts(d, w, q, o) == w.mounts
  {
  }

  /** Whatever anyone else does, a lock holder's working directory stays as it is for as long as the lock is held. */
  lemma OthersLeaveWorkDirAlone(d: Deployment, w: World, s: Step, r: RequestID)
    requires GoodDeployment(d) && LockInv(d, w) && r in w.requests && Holds(w.requests[r])
    requires s.ControllerStep? ==> s.r != r
    requires r in Next(d, w, s).requests && Holds(Next(d, w, s).requests[r])
    ensures SameUnder(w, Next(d, w, s), WorkDir(d, w.requests[r].volume))
  {
    var v, w' := w.requests[r].volume, Next(d, w, s);
    assert RequestFits(d, w.requests[r]);
    if Enabled(d, w, s) && s.ControllerStep? {
      var q := w.requests[s.r];
      assert RequestFits(d, q);
      if Holds(q) {
        forall p | WorkDir(d, v) <= p
          ensures (p in w'.files <==> p in w.files) && (p in w'.mounts <==> p in w.mounts)
        {
          WorkDirsApart(d, q.volume, v, p);
          StepStaysInWorkDir(d, w, q, s.outcome, p);
        }
      } else {
        StepWithoutLock(d, w, q, s.outcome);
      }
    }
  }

  /** The client configuration has been written and not yet cleaned up. */
  predicate NeedsClientFiles(q: Request)
  {
    Holds(q) && q.phase != MakeWorkDir && q.phase != WriteClientFiles && !q.failed
    && q.phase != ListMounts && q.phase != UnmountWork && q.phase != RemoveWorkDir
    && q.phase != WriteDeleted && q.phase != ReleaseLock
  }

  /** The working directory has been made and not yet cleaned up. */
  predicate NeedsWorkDir(q: Request)
  {
    NeedsClientFiles(q) || q.phase == WriteClientFiles
  }

  /** A delete whose cleanup has succeeded. */
  predicate HasCleanedUp(q: Request)
  {
    q.kind == Delete && !q.failed && (q.phase == WriteDeleted || q.phase == ReleaseLock)
  }

  predicate NeedsMount(q: Request)
  {
    || q.phase == ChangeMode || q.phase == CheckNodesDir || q.phase == CheckEmpty || q.phase == RemoveNodesDir
    || q.phase == RemoveVolDir
  }

  /** Creates and deletes remove their working directory only after they have unmounted the file system in it. */
  predicate HasUnmounted(q: Request)
  {
    HasCleanedUp(q) || (q.phase == RemoveWorkDir && q.kind != Validate)
  }

  predicate NothingIn(dir: Path, files: set<Path>)
  {
    forall p :: p in files ==> !(dir <= p)
  }

  predicate HasWorkFiles(d: Deployment, w: World, q: Request)
  {
    && (NeedsWorkDir(q) ==> WorkDir(d, q.volume) in w.files)
    && (NeedsClientFiles(q) ==> WorkConf(d, q.volume) in w.files)
    && (NeedsMount(q) ==> WorkMount(d, q.volume) in w.mounts)
    && (HasUnmounted(q) ==> WorkMount(d, q.volume) !in w.mounts)
    && (HasCleanedUp(q) ==> NothingIn(WorkDir(d, q.volume), w.files))
  }

  ghost predicate WorkFilesInv(d: Deployment, w: World)
  {
    forall r :: r in w.requests ==> HasWorkFiles(d, w, w.requests[r])
  }

  lemma OwnStepKeepsFiles(d: Deployment, w: World, r: RequestID, o: Outcome)
    requires r in w.requests && RequestFits(d, w.requests[r]) && HasWorkFiles(d, w, w.requests[r])
    requires Enabled(d, w, ControllerStep(r, o))
    ensures HasWorkFiles(d, ControllerNext(d, w, r, o), ControllerNext(d, w, r, o).requests[r])
  {
    OwnStepKeepsConf(d, w, w.requests[r], o);
    OwnStepKeepsMount(d, w, w.requests[r], o);
    OwnStepKeepsDir(d, w, w.requests[r], o);
    OwnStepKeepsClean(d, w, w.requests[r], o);
    IdentityStays(w, w.requests[r], o);
  }

  lemma OwnStepKeepsMount(d: Deployment, w: World, q: Request, o: Outcome)
    requires PhaseFits(q) && (NeedsMount(q) ==> WorkMount(d, q.volume) in w.mounts)
    requires (HasUnmounted(q) ==> WorkMount(d, q.volume) !in w.mounts)
    ensures NeedsMount(NextRequest(w, q, o)) ==> WorkMount(d, q.volume) in NextMounts(d, w, q, o)
    ensures HasUnmounted(NextRequest(w, q, o)) ==> WorkMount(d, q.volume) !in NextMounts(d, w, q, o)
  {
    MountGrowsSlowly(w, q, o);
    CleanupGrowsSlowly(w, q, o);
  }

  lemma OwnStepKeepsConf(d: Deployment, w: World, q: Request, o: Outcome)
    requires PhaseFits(q) && (NeedsClientFiles(q) ==> WorkConf(d, q.volume) in w.files)
    ensures NeedsClientFiles(NextRequest(w, q, o)) ==> WorkConf(d, q.volume) in NextFiles(d, w, q, o)
  {
    NeedsGrowSlowly(w, q, o);
  }

  lemma OwnStepKeepsDir(d: Deployment, w: World, q: Request, o: Outcome)
    requires PhaseFits(q) && (NeedsWorkDir(q) ==> WorkDir(d, q.volume) in w.files)
    ensures NeedsWorkDir(NextRequest(w, q, o)) ==> WorkDir(d, q.volume) in NextFiles(d, w, q, o)
  {
    NeedsGrowSlowly(w, q, o);
  }

  /** The cleanup of a delete ends with the removal of its working directory, once nothing is mounted in it. */
  lemma OwnStepKeepsClean(d: Deployment, w: World, q: Request, o: Outcome)
    requires PhaseFits(q) && (HasCleanedUp(q) ==> NothingIn(WorkDir(d, q.volume), w.files))
    requires HasUnmounted(q) ==> WorkMount(d, q.volume) !in w.mounts
    ensures HasCleanedUp(NextRequest(w, q, o)) ==> NothingIn(WorkDir(d, q.volume), NextFiles(d, w, q, o))
  {
    CleanupGrowsSlowly(w, q, o);
  }

  /** A request comes to need its files, or its mount, only by the step that provides them. */
  lemma NeedsGrowSlowly(w: World, q: Request, o: Outcome)
    requires PhaseFits(q)
    ensures
      var q' := NextRequest(w, q, o);
      && (NeedsClientFiles(q') ==> NeedsClientFiles(q) || (q.phase == WriteClientFiles && o == Ok))
      && (NeedsWorkDir(q') ==> NeedsWorkDir(q) || (q.phase == MakeWorkDir && o == Ok))
      && (NeedsWorkDir(q) ==> q.phase != RemoveWorkDir)
  {
  }

  lemma MountGrowsSlowly(w: World, q: Request, o: Outcome)
    requires PhaseFits(q)
    ensures
      var q' := NextRequest(w, q, o);
      && (NeedsMount(q') ==> NeedsMount(q) || ((q.phase == MountForChmod || q.phase == MountForDelete) && o == Ok))
      && (NeedsMount(q) ==> q.phase != UnmountWork)
  {
  }

  /** A cleanup is over only by the steps that do it. */
  lemma CleanupGrowsSlowly(w: World, q: Request, o: Outcome)
    requires PhaseFits(q)
    ensures
      var q' := NextRequest(w, q, o);
      && (HasUnmounted(q') ==> (q.phase == UnmountWork && o == Ok) || HasUnmounted(q))
      && (HasCleanedUp(q') ==> (q.phase == RemoveWorkDir && o == Ok && q.kind == Delete) || q.phase == WriteDeleted)
  {
  }

  lemma SameUnderKeepsFiles(d: Deployment, w: World, w': World, q: Request)
    requires HasWorkFiles(d, w, q) && SameUnder(w, w', WorkDir(d, q.volume))
    ensures HasWorkFiles(d, w', q)
  {
    assert WorkDir(d, q.volume) <= WorkConf(d, q.volume) && WorkDir(d, q.volume) <= WorkMount(d, q.volume);
  }

  lemma NoLockNoFiles(d: Deployment, w: World, q: Request)
    requires !Holds(q)
    ensures HasWorkFiles(d, w, q)
  {
  }

  lemma OtherRequestKept(d: Deployment, w: World, s: Step, r: RequestID)
    requires r in Next(d, w, s).requests && (s.ControllerStep? ==> s.r != r) && !s.Restart? && !s.Reboot?
    ensures
      var q := Next(d, w, s).requests[r];
      if r in w.requests then q == w.requests[r] else !Holds(q)
  {
  }

  lemma RestartKeepsFiles(d: Deployment, w: World, s: Step)
    requires s.Restart? || s.Reboot?
    ensures WorkFilesInv(d, Next(d, w, s))
  {
    var w' := Next(d, w, s);
    forall r | r in w'.requests ensures HasWorkFiles(d, w', w'.requests[r]) {
      assert w'.requests[r] == EndedByRestart(w.requests[r]);
      NoLockNoFiles(d, w', w'.requests[r]);
    }
  }

  lemma OtherStepKeepsFiles(d: Deployment, w: World, s: Step, r: RequestID)
    requires GoodDeployment(d) && LockInv(d, w) && (r in w.requests ==> HasWorkFiles(d, w, w.requests[r]))
    requires r in Next(d, w, s).requests && (s.ControllerStep? ==> s.r != r) && !s.Restart? && !s.Reboot?
    ensures HasWorkFiles(d, Next(d, w, s), Next(d, w, s).requests[r])
  {
    OtherRequestKept(d, w, s, r);
    var q, w' := Next(d, w, s).requests[r], Next(d, w, s);
    if Holds(q) {
      OthersLeaveWorkDirAlone(d, w, s, r);
      SameUnderKeepsFiles(d, w, w', q);
    } else {
      NoLockNoFiles(d, w', q);
    }
  }

  lemma WorkFilesNext(d: Deployment, w: World, s: Step)
    requires GoodDeployment(d) && LockInv(d, w) && WorkFilesInv(d, w)
    ensures WorkFilesInv(d, Next(d, w, s))
  {
    var w' := Next(d, w, s);
    if s.Restart? || s.Reboot? {
      RestartKeepsFiles(d, w, s);
      return;
    }
    forall r | r in w'.requests ensures HasWorkFiles(d, w', w'.requests[r]) {
      if s.ControllerStep? && s.r == r {
        if Enabled(d, w, s) {
          OwnStepKeepsFiles(d, w, r, s.outcome);
        }
      } else {
        OtherStepKeepsFiles(d, w, s, r);
      }
    }
  }

  /** Over every run, a request finds its own client files and its own mount for as long as it needs them. */
  lemma {:induction false} WorkFilesAlways(d: Deployment, steps: seq<Step>)
    requires GoodDeployment(d)
    ensures WorkFilesInv(d, Run(d, INITIAL, steps))
  {
    if steps != [] {
      var before := steps[..|steps| - 1];
      WorkFilesAlways(d, before);
      LockDiscipline(d, before);
      WorkFilesNext(d, Run(d, INITIAL, before), steps[|steps| - 1]);
    }
  }

  /**
   Over every run, only a Validate can come to remove its working directory with the file system still mounted
   inside.
   */
  lemma OnlyValidateIsExposed(d: Deployment, steps: seq<Step>, r: RequestID)
    requires GoodDeployment(d)
    ensures
      var w := Run(d, INITIAL, steps);
      r in w.requests && Exposed(d, w, w.requests[r]) ==> w.requests[r].kind == Validate
  {
    WorkFilesAlways(d, steps);
  }
}
