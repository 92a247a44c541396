/** What requests leave behind: tracking directories that are made and removed, and nothing else on the host. */
module LifecycleRemains {
  import opened Lifecycle
  import opened LifecycleController
  import opened LifecycleWorkDirs
  import opened LifecycleTracking
  import opened LifecycleWipes
  import opened LifecycleReplies

  // ---- A delete removes the tracking directory -----------------------------------------------------------------

  /** A delete that is done with the tracking directory and has no error to report. */
  predicate DoneTracking(q: Request)
  {
    && q.kind == Delete && !q.failed && Holds(q)
    && (!BeforeChange(q.phase) || q.phase == RemoveVolDir)
  }

  ghost predicate TrackingGone(w: World)
  {
    forall r :: r in w.requests && DoneTracking(w.requests[r]) ==> w.requests[r].volume !in w.nodesDirs
  }

  lemma OwnTrackingGone(d: Deployment, w: World, q: Request, o: Outcome)
    requires PhaseFits(q) && Possible(q, o) && (DoneTracking(q) ==> q.volume !in w.nodesDirs)
    ensures DoneTracking(NextRequest(w, q, o)) ==> q.volume !in NextNodesDirs(d, w, q, o)
  {
    if DoneTracking(NextRequest(w, q, o)) && !DoneTracking(q) {
      BecomesDone(w, q, o);
    }
  }

  /** A delete is done with it once it has found no tracking directory, or removed an empty one. */
  lemma BecomesDone(w: World, q: Request, o: Outcome)
    requires PhaseFits(q) && Possible(q, o) && DoneTracking(NextRequest(w, q, o)) && !DoneTracking(q)
    ensures
      || (q.phase == CheckNodesDir && q.volume !in w.nodesDirs)
      || (q.phase == RemoveNodesDir && o == Ok && (q.volume in w.nodesDirs ==> w.nodesDirs[q.volume] == {}))
  {
  }

  lemma OtherTrackingGone(d: Deployment, w: World, r: RequestID, o: Outcome, v: VolumeID)
    requires r in w.requests && PhaseFits(w.requests[r]) && v !in w.nodesDirs
    requires !(Holds(w.requests[r]) && w.requests[r].volume == v)
    ensures v !in ControllerNext(d, w, r, o).nodesDirs
  {
  }

  lemma NodesMakeNoDir(d: Deployment, w: World, n: NodeID, u: VolumeID, o: Outcome)
    ensures NodeNext(d, w, n, u, o).nodesDirs.Keys == w.nodesDirs.Keys
  {
  }

  lemma TrackingGoneStep(d: Deployment, w: World, r: RequestID, o: Outcome)
    requires LockInv(d, w) && TrackingGone(w) && Enabled(d, w, ControllerStep(r, o))
    ensures TrackingGone(ControllerNext(d, w, r, o))
  {
    var q, w' := w.requests[r], ControllerNext(d, w, r, o);
    assert RequestFits(d, q);
    OwnTrackingGone(d, w, q, o);
    IdentityStays(w, q, o);
    forall t | t in w'.requests && DoneTracking(w'.requests[t]) ensures w'.requests[t].volume !in w'.nodesDirs {
      if t != r {
        OtherTrackingGone(d, w, r, o, w.requests[t].volume);
      }
    }
  }

  lemma TrackingGoneNext(d: Deployment, w: World, s: Step)
    requires LockInv(d, w) && TrackingGone(w)
    ensures TrackingGone(Next(d, w, s))
  {
    if Enabled(d, w, s) {
      match s
      case ControllerStep(r, o) => TrackingGoneStep(d, w, r, o);
      case NodeStep(n, u, o) => NodesMakeNoDir(d, w, n, u, o);
      case _ =>
    }
  }

  lemma {:induction false} TrackingGoneAlways(d: Deployment, steps: seq<Step>)
    ensures TrackingGone(Run(d, INITIAL, steps))
  {
    if steps != [] {
      var k := |steps| - 1;
      TrackingGoneAlways(d, steps[..k]);
      LockDiscipline(d, steps[..k]);
      TrackingGoneNext(d, Run(d, INITIAL, steps[..k]), steps[k]);
    }
  }

  /**
   Over every run, a delete that is about to report success has left nothing: no volume directory, no tracking
   directory, and on its host neither a file of its working directory nor a mount in it.
   */
  lemma DeleteLeavesNothing(d: Deployment, steps: seq<Step>, r: RequestID)
    requires GoodDeployment(d)
    ensures
      var w := Run(d, INITIAL, steps);
      && r in w.requests && w.requests[r].kind == Delete
      && w.requests[r].phase == ReleaseLock && !w.requests[r].failed ==>
        var v := w.requests[r].volume;
        && v !in w.volDirs && v !in w.nodesDirs && WorkMount(d, v) !in w.mounts
        && (forall p :: p in w.files ==> !(WorkDir(d, v) <= p))
  {
    SuccessIsTrue(d, steps, r);
    TrackingGoneAlways(d, steps);
    WorkFilesAlways(d, steps);
  }

  // ---- A create makes it ------------------------------------------------------------------------------------------

  /** A create that is past making the tracking directory. */
  predicate PastTracking(q: Request)
  {
    && q.kind == Create
    && (q.phase == WriteCreated || CleaningUp(q.phase) || q.phase == ReleaseLock || q.phase == Finished)
  }

  lemma PastTrackingNext(w: World, q: Request, o: Outcome)
    requires PastTracking(q) || (q.kind == Create && q.phase == CreateNodesDir)
    ensures PastTracking(NextRequest(w, q, o))
  {
  }

  /** No step of another request takes away the tracking directory of a volume that is locked, unless it wipes it. */
  lemma OthersKeepTracking(d: Deployment, w: World, r: RequestID, o: Outcome, v: VolumeID)
    requires r in w.requests && PhaseFits(w.requests[r]) && v in w.nodesDirs
    requires w.requests[r].volume == v ==> !Holds(w.requests[r]) || w.requests[r].kind != Delete
    requires !Wipes(d, w, ControllerStep(r, o), v)
    ensures v in ControllerNext(d, w, r, o).nodesDirs
  {
  }

  lemma TrackingStays(d: Deployment, w: World, s: Step, r: RequestID)
    requires LockInv(d, w) && r in w.requests && Holds(w.requests[r]) && w.requests[r].kind == Create
    requires w.requests[r].volume in w.nodesDirs && !Wipes(d, w, s, w.requests[r].volume)
    ensures w.requests[r].volume in Next(d, w, s).nodesDirs
  {
    if Enabled(d, w, s) {
      match s
      case ControllerStep(t, o) =>
        assert RequestFits(d, w.requests[t]);
        OthersKeepTracking(d, w, t, o, w.requests[r].volume);
      case NodeStep(n, u, o) => NodesMakeNoDir(d, w, n, u, o);
      case _ =>
    }
  }

  lemma MadeTrackingStep(d: Deployment, w: World, s: Step, r: RequestID)
    requires d.trackNodes && LockInv(d, w) && r in w.requests && !Wipes(d, w, s, w.requests[r].volume)
    requires PastTracking(w.requests[r]) && (Holds(w.requests[r]) ==> w.requests[r].volume in w.nodesDirs)
    ensures r in Next(d, w, s).requests
    ensures
      var q, w' := Next(d, w, s).requests[r], Next(d, w, s);
      PastTracking(q) && q.volume == w.requests[r].volume && (Holds(q) ==> q.volume in w'.nodesDirs)
  {
    OthersLeaveRequest(d, w, s, r);
    if OwnStep(d, w, s, r) {
      PastTrackingNext(w, w.requests[r], s.outcome);
      IdentityStays(w, w.requests[r], s.outcome);
      HoldsMoves(w, w.requests[r], s.outcome);
    }
    if Holds(w.requests[r]) {
      TrackingStays(d, w, s, r);
    }
  }

  lemma MakesTrackingNow(d: Deployment, w: World, r: RequestID)
    requires d.trackNodes && LockInv(d, w) && r in w.requests && w.requests[r].phase == CreateNodesDir
    ensures
      var w' := ControllerNext(d, w, r, Ok);
      PastTracking(w'.requests[r]) && w'.requests[r].volume in w'.nodesDirs
  {
    assert RequestFits(d, w.requests[r]);
    PastTrackingNext(w, w.requests[r], Ok);
    IdentityStays(w, w.requests[r], Ok);
  }

  /**
   Over every run without a wipe of the volume: once a create has made the tracking directory, and for as long
   as it holds its lock, the directory is there.
   */
  lemma {:induction false} CreateMakesTracking(d: Deployment, steps: seq<Step>, r: RequestID, v: VolumeID)
    requires d.trackNodes && GoodDeployment(d) && NoLeftovers(d, steps, v)
    requires r in Run(d, INITIAL, steps).requests && Run(d, INITIAL, steps).requests[r].volume == v
    requires CreateNodesDir in Done(d, INITIAL, steps, r)
    ensures
      var w := Run(d, INITIAL, steps);
      PastTracking(w.requests[r]) && (Holds(w.requests[r]) ==> v in w.nodesDirs)
  {
    if steps != [] {
      var k := |steps| - 1;
      var w := Run(d, INITIAL, steps[..k]);
      LockDiscipline(d, steps[..k]);
      NothingWiped(d, steps, v, k);
      DoneIsKnown(d, INITIAL, steps, r);
      OthersLeaveRequest(d, w, steps[k], r);
      if OwnStep(d, w, steps[k], r) {
        IdentityStays(w, w.requests[r], steps[k].outcome);
      }
      if CreateNodesDir in Done(d, INITIAL, steps[..k], r) {
        NoLeftoversBefore(d, steps, v);
        CreateMakesTracking(d, steps[..k], r, v);
        MadeTrackingStep(d, w, steps[k], r);
      } else {
        MakesTrackingNow(d, w, r);
      }
    }
  }

  /** Only a request that is there has made calls. */
  lemma {:induction false} DoneIsKnown(d: Deployment, w: World, steps: seq<Step>, r: RequestID)
    requires steps != [] && Done(d, w, steps, r) != {}
    ensures r in Run(d, w, steps[..|steps| - 1]).requests
  {
    var k := |steps| - 1;
    var before := Run(d, w, steps[..k]);
    if !OwnStep(d, before, steps[k], r) {
      if k > 0 {
        DoneIsKnown(d, w, steps[..k], r);
        OthersLeaveRequest(d, Run(d, w, steps[..k][..k - 1]), steps[..k][k - 1], r);
      }
    }
  }

  lemma NoLeftoversBefore(d: Deployment, steps: seq<Step>, v: VolumeID)
    requires steps != [] && NoLeftovers(d, steps, v)
    ensures NoLeftovers(d, steps[..|steps| - 1], v)
  {
    var front := steps[..|steps| - 1];
    forall i: nat | i < |front| ensures !LeftoverRemoved(d, Run(d, INITIAL, front[..i]), front[i], v) {
      assert front[..i] == steps[..i];
    }
  }

  /** Where nodes are not tracked there never is a tracking directory. */
  lemma {:induction false} UntrackedDeployment(d: Deployment, steps: seq<Step>)
    requires !d.trackNodes
    ensures Run(d, INITIAL, steps).nodesDirs == map[]
  {
    if steps != [] {
      UntrackedDeployment(d, steps[..|steps| - 1]);
    }
  }

  // ---- What the caveats stand for -----------------------------------------------------------------------------------

  /** By this step, a request of this kind for the volume is told that it has failed. */
  ghost predicate EndsInFailure(d: Deployment, w: World, s: Step, kind: Kind, v: VolumeID)
  {
    && s.ControllerStep? && OwnStep(d, w, s, s.r) && w.requests[s.r].kind == kind && w.requests[s.r].volume == v
    && w.requests[s.r].phase != Finished && Next(d, w, s).requests[s.r].reply == Failure
  }

  /** By this step, the status of the volume is written, or the controller loses it. */
  ghost predicate WritesStatus(d: Deployment, w: World, s: Step, v: VolumeID)
  {
    || s.Restart? || s.Reboot?
    || (s.ControllerStep? && OwnStep(d, w, s, s.r) && w.requests[s.r].volume == v
        && (w.requests[s.r].phase == WriteCreated || w.requests[s.r].phase == WriteDeleted))
  }

  /** On the run, such a request has failed since the status was last written. */
  ghost predicate FailedSince(d: Deployment, steps: seq<Step>, kind: Kind, v: VolumeID)
  {
    steps != []
    && var k := |steps| - 1;
       var w := Run(d, INITIAL, steps[..k]);
       || EndsInFailure(d, w, steps[k], kind, v)
       || (FailedSince(d, steps[..k], kind, v) && !WritesStatus(d, w, steps[k], v))
  }

  lemma FailedNext(d: Deployment, w: World, s: Step, v: VolumeID)
    requires RepliesAtEnd(w)
    ensures
      v in Next(d, w, s).createFailed <==>
        EndsInFailure(d, w, s, Create, v) || (v in w.createFailed && !WritesStatus(d, w, s, v))
    ensures
      v in Next(d, w, s).deleteFailed <==>
        EndsInFailure(d, w, s, Delete, v) || (v in w.deleteFailed && !WritesStatus(d, w, s, v))
  {
    if s.ControllerStep? && Enabled(d, w, s) {
      var q := w.requests[s.r];
      assert Next(d, w, s).requests[s.r] == NextRequest(w, q, s.outcome);
      FailureReply(w, q, s.outcome);
    }
  }

  lemma FailureReply(w: World, q: Request, o: Outcome)
    requires q.phase != Finished ==> q.reply == NoReply
    ensures q.phase != Finished && NextRequest(w, q, o).reply == Failure <==> q.phase == ReleaseLock && q.failed
  {
  }

  /** Over every run, a volume counts as one with a failed create, or delete, exactly if one has failed since. */
  lemma {:induction false} FailedExactlySince(d: Deployment, steps: seq<Step>, v: VolumeID)
    ensures v in Run(d, INITIAL, steps).createFailed <==> FailedSince(d, steps, Create, v)
    ensures v in Run(d, INITIAL, steps).deleteFailed <==> FailedSince(d, steps, Delete, v)
  {
    if steps != [] {
      var k := |steps| - 1;
      var w := Run(d, INITIAL, steps[..k]);
      FailedExactlySince(d, steps[..k], v);
      RepliesAlwaysAtEnd(d, steps[..k]);
      FailedNext(d, w, steps[k], v);
    }
  }

  /** No request has a reply before its end. */
  ghost predicate RepliesAtEnd(w: World)
  {
    forall r :: r in w.requests && w.requests[r].phase != Finished ==> w.requests[r].reply == NoReply
  }

  lemma ReplyNext(d: Deployment, w: World, s: Step, r: RequestID)
    requires RepliesAtEnd(w) && r in Next(d, w, s).requests
    ensures var q := Next(d, w, s).requests[r]; q.phase != Finished ==> q.reply == NoReply
  {
    if r in w.requests {
      OthersLeaveRequest(d, w, s, r);
      if OwnStep(d, w, s, r) {
        NoReplyYet(w, w.requests[r], s.outcome);
      }
    }
  }

  lemma {:induction false} RepliesAlwaysAtEnd(d: Deployment, steps: seq<Step>)
    ensures RepliesAtEnd(Run(d, INITIAL, steps))
  {
    if steps != [] {
      var k := |steps| - 1;
      RepliesAlwaysAtEnd(d, steps[..k]);
      forall r | r in Run(d, INITIAL, steps).requests
        ensures var q := Run(d, INITIAL, steps).requests[r]; q.phase != Finished ==> q.reply == NoReply
      {
        ReplyNext(d, Run(d, INITIAL, steps[..k]), steps[k], r);
      }
    }
  }

  lemma NoReplyYet(w: World, q: Request, o: Outcome)
    requires q.phase != Finished ==> q.reply == NoReply
    ensures NextRequest(w, q, o).phase != Finished ==> NextRequest(w, q, o).reply == NoReply
  {
  }
}
