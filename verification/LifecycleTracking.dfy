/**
 The tracking files that nodes leave in the shared directory of a volume: when they stand for a staging
 mount, and what a DeleteVolume that finds none of them may conclude.
 */
module LifecycleTracking {
  import opened Lifecycle
  import opened LifecycleController
  import opened LifecycleNodes

  predicate Tracked(w: World, n: NodeID, v: VolumeID)
  {
    v in w.nodesDirs && n in w.nodesDirs[v]
  }

  /** The unstage RPC has dealt with its tracking file, one way or the other. */
  predicate PastUntrack(rpc: Rpc)
  {
    rpc == UnstageList || rpc == UnstageUnmount || rpc == UnstageClean
  }

  predicate TrackedOk(d: Deployment, w: World, n: NodeID, v: VolumeID)
  {
    Tracked(w, n, v) && v !in Host(w, n).lostTrack ==>
      Mounted(d, n, Host(w, n), v) && !PastUntrack(RpcOf(Host(w, n), v))
  }

  /** The controller only takes tracking files away. */
  lemma ControllerTracksNothing(d: Deployment, w: World, r: RequestID, o: Outcome, n: NodeID, v: VolumeID)
    requires r in w.requests && Tracked(ControllerNext(d, w, r, o), n, v)
    ensures Tracked(w, n, v)
  {
  }

  /** A node takes its own tracking files away, or adds one for a volume that is mounted. */
  lemma NodeTracksItself(d: Deployment, w: World, n: NodeID, v: VolumeID, o: Outcome, m: NodeID, u: VolumeID)
    requires Tracked(NodeNext(d, w, n, v, o), m, u)
    ensures Tracked(w, m, u) || (m == n && u == v && RpcOf(Host(w, n), v) == StageTrack)
  {
  }

  /** Once the tracking file is dealt with, it is gone or given up on. */
  lemma UntrackEnds(d: Deployment, w: World, n: NodeID, v: VolumeID, o: Outcome)
    requires var rpc := RpcOf(Host(w, n), v); rpc == UnstageCheck || rpc == UnstageUntrack
    requires TrackedOk(d, w, n, v)
    ensures TrackedOk(d, NodeNext(d, w, n, v, o), n, v)
  {
    var w' := NodeNext(d, w, n, v, o);
    assert RpcOf(Host(w', n), v) == NextRpc(d, w, n, Host(w, n), v, o);
  }

  lemma OwnStepKeepsTracked(d: Deployment, w: World, n: NodeID, v: VolumeID, o: Outcome)
    requires TrackedOk(d, w, n, v) && VolumeOk(d, n, Host(w, n), v)
    ensures TrackedOk(d, NodeNext(d, w, n, v, o), n, v)
  {
    var w' := NodeNext(d, w, n, v, o);
    var rpc := RpcOf(Host(w, n), v);
    if rpc == UnstageCheck || rpc == UnstageUntrack {
      UntrackEnds(d, w, n, v, o);
    } else if Tracked(w', n, v) {
      NodeTracksItself(d, w, n, v, o, n, v);
    }
  }

  lemma TrackedOkNext(d: Deployment, w: World, s: Step, n: NodeID, v: VolumeID)
    requires GoodDeployment(d) && NodesOk(d, w) && TrackedOk(d, w, n, v)
    ensures TrackedOk(d, Next(d, w, s), n, v)
  {
    if Enabled(d, w, s) {
      match s
      case BeginRequest(r, kind, u, special) =>
      case ControllerStep(r, o) =>
        if Tracked(Next(d, w, s), n, v) {
          ControllerTracksNothing(d, w, r, o, n, v);
        }
      case BeginRpc(m, u, rpc) =>
      case NodeStep(m, u, o) =>
        assert HostOk(d, m, Host(w, m)) && VolumeOk(d, m, Host(w, m), u);
        if m == n && u == v {
          OwnStepKeepsTracked(d, w, n, v, o);
        } else if Tracked(Next(d, w, s), n, v) {
          NodeTracksItself(d, w, m, u, o, n, v);
          if m == n {
            OtherVolumeQuiet(d, w, n, u, o, v);
          }
        }
      case Restart =>
      case Reboot =>
      case RestartNode(m) =>
      case RebootNode(m) =>
    }
  }

  lemma {:induction false} TrackedOkAlways(d: Deployment, steps: seq<Step>, n: NodeID, v: VolumeID)
    requires GoodDeployment(d)
    ensures TrackedOk(d, Run(d, INITIAL, steps), n, v)
  {
    if steps != [] {
      var w := Run(d, INITIAL, steps[..|steps| - 1]);
      NodesOkAlways(d, steps[..|steps| - 1]);
      TrackedOkAlways(d, steps[..|steps| - 1], n, v);
      TrackedOkNext(d, w, steps[|steps| - 1], n, v);
    }
  }

  /**
   Over every run, a node with a tracking file has the volume staged, unless its latest unstage or reboot lost
   track of it.
   */
  lemma TrackedImpliesStaged(d: Deployment, steps: seq<Step>, n: NodeID, v: VolumeID)
    requires GoodDeployment(d)
    requires var w := Run(d, INITIAL, steps); Tracked(w, n, v) && v !in Host(w, n).lostTrack
    ensures Staged(d, n, Host(Run(d, INITIAL, steps), n), v)
  {
    TrackedOkAlways(d, steps, n, v);
    NodesOkAlways(d, steps);
    var w := Run(d, INITIAL, steps);
    assert HostOk(d, n, Host(w, n)) && VolumeOk(d, n, Host(w, n), v);
  }

  // ---- What an empty tracking directory means ----------------------------------------------------------------

  predicate Removing(w: World, v: VolumeID)
  {
    exists r :: r in w.requests && w.requests[r].volume == v && w.requests[r].phase == RemoveNodesDir
  }

  /** The node's file is there and nobody is on the way to removing it. */
  predicate SafelyTracked(w: World, n: NodeID, v: VolumeID)
  {
    Tracked(w, n, v) && RpcOf(Host(w, n), v) != UnstageCheck
    && RpcOf(Host(w, n), v) != UnstageUntrack && !Removing(w, v)
  }

  /**
   The three things that take a tracked node's file away: its own unstage, a delete that gave up waiting, and
   the removal of a working directory with the file system still mounted inside.
   */
  ghost predicate Untracks(d: Deployment, w: World, s: Step, n: NodeID, v: VolumeID)
  {
    && Enabled(d, w, s)
    && (s == BeginRpc(n, v, UnstageCheck) || GivesUp(w, s, v) || Wipes(d, w, s, v))
  }

  predicate Wipes(d: Deployment, w: World, s: Step, v: VolumeID)
  {
    s.ControllerStep? && s.r in w.requests && Exposed(d, w, w.requests[s.r]) && SameFs(v, w.requests[s.r].volume)
  }

  predicate GivesUp(w: World, s: Step, v: VolumeID)
  {
    && s.ControllerStep? && s.outcome == GiveUp && s.r in w.requests && w.requests[s.r].volume == v
    && w.requests[s.r].phase == CheckEmpty && v in w.nodesDirs && w.nodesDirs[v] != {}
  }

  /** A delete finds the tracking directory empty and goes on to remove it. */
  predicate PassesEmptyTest(d: Deployment, w: World, s: Step, v: VolumeID)
  {
    && s.ControllerStep? && s.outcome == Ok && s.r in w.requests && w.requests[s.r].volume == v
    && w.requests[s.r].phase == CheckEmpty && NextRequest(w, w.requests[s.r], s.outcome).phase == RemoveNodesDir
  }

  lemma NoneStartsRemoving(d: Deployment, w: World, r: RequestID, o: Outcome, n: NodeID, v: VolumeID)
    requires Tracked(w, n, v) && !Removing(w, v) && Enabled(d, w, ControllerStep(r, o))
    requires !GivesUp(w, ControllerStep(r, o), v)
    ensures !Removing(ControllerNext(d, w, r, o), v)
  {
    var q := w.requests[r];
    IdentityStays(w, q, o);
    if NextRequest(w, q, o).phase == RemoveNodesDir {
      EntersRemoval(w, q, o);
    }
  }

  /** A request comes to remove the tracking directory from the empty test only, if it passes or gives up. */
  lemma EntersRemoval(w: World, q: Request, o: Outcome)
    requires NextRequest(w, q, o).phase == RemoveNodesDir
    ensures
      || q.phase == RemoveNodesDir
      || (q.phase == CheckEmpty && q.volume in w.nodesDirs && (o == GiveUp || w.nodesDirs[q.volume] == {}))
  {
  }

  lemma ControllerKeepsFile(d: Deployment, w: World, r: RequestID, o: Outcome, n: NodeID, v: VolumeID)
    requires r in w.requests && Tracked(w, n, v) && !Removing(w, v) && !Wipes(d, w, ControllerStep(r, o), v)
    ensures Tracked(ControllerNext(d, w, r, o), n, v)
  {
  }

  lemma SafeThroughController(d: Deployment, w: World, r: RequestID, o: Outcome, n: NodeID, v: VolumeID)
    requires SafelyTracked(w, n, v) && Enabled(d, w, ControllerStep(r, o))
    requires !Untracks(d, w, ControllerStep(r, o), n, v)
    ensures SafelyTracked(ControllerNext(d, w, r, o), n, v)
  {
    NoneStartsRemoving(d, w, r, o, n, v);
    ControllerKeepsFile(d, w, r, o, n, v);
  }

  lemma SafeThroughNode(d: Deployment, w: World, m: NodeID, u: VolumeID, o: Outcome, n: NodeID, v: VolumeID)
    requires SafelyTracked(w, n, v)
    ensures SafelyTracked(NodeNext(d, w, m, u, o), n, v)
  {
    var w' := NodeNext(d, w, m, u, o);
    NodesLeaveController(d, w, m, u, o);
    assert m != n ==> Host(w', n) == Host(w, n);
  }

  lemma SafeNext(d: Deployment, w: World, s: Step, n: NodeID, v: VolumeID)
    requires SafelyTracked(w, n, v) && !Untracks(d, w, s, n, v)
    ensures SafelyTracked(Next(d, w, s), n, v)
  {
    if Enabled(d, w, s) {
      match s
      case BeginRequest(r, kind, u, special) =>
      case ControllerStep(r, o) => SafeThroughController(d, w, r, o, n, v);
      case BeginRpc(m, u, rpc) =>
      case NodeStep(m, u, o) => SafeThroughNode(d, w, m, u, o, n, v);
      case Restart =>
      case Reboot =>
      case RestartNode(m) =>
      case RebootNode(m) =>
    }
  }

  ghost predicate UntrackedDuring(d: Deployment, w: World, steps: seq<Step>, n: NodeID, v: VolumeID)
  {
    exists i: nat :: i < |steps| && UntracksAt(d, w, steps, n, v, i)
  }

  ghost predicate UntracksAt(d: Deployment, w: World, steps: seq<Step>, n: NodeID, v: VolumeID, i: nat)
    requires i < |steps|
  {
    Untracks(d, Run(d, w, steps[..i]), steps[i], n, v)
  }

  lemma NotUntrackedBefore(d: Deployment, w: World, steps: seq<Step>, n: NodeID, v: VolumeID)
    requires steps != [] && !UntrackedDuring(d, w, steps, n, v)
    ensures !UntrackedDuring(d, w, steps[..|steps| - 1], n, v) && !UntracksAt(d, w, steps, n, v, |steps| - 1)
  {
    var front := steps[..|steps| - 1];
    forall i: nat | i < |front| ensures !UntracksAt(d, w, front, n, v, i) {
      assert front[..i] == steps[..i];
      assert !UntracksAt(d, w, steps, n, v, i);
    }
  }

  lemma {:induction false} SafeUntilUntracked(d: Deployment, w: World, steps: seq<Step>, n: NodeID, v: VolumeID)
    requires SafelyTracked(w, n, v) && !UntrackedDuring(d, w, steps, n, v)
    ensures SafelyTracked(Run(d, w, steps), n, v)
  {
    if steps != [] {
      var k := |steps| - 1;
      NotUntrackedBefore(d, w, steps, n, v);
      SafeUntilUntracked(d, w, steps[..k], n, v);
      SafeNext(d, Run(d, w, steps[..k]), steps[k], n, v);
    }
  }

  /** The node is about to write its file, and can. */
  predicate Writes(d: Deployment, w: World, n: NodeID, v: VolumeID)
  {
    RpcOf(Host(w, n), v) == StageTrack && Mounted(d, n, Host(w, n), v) && v in w.nodesDirs
  }

  /** A node that writes its file while no delete is removing the directory is safely tracked from then on. */
  lemma WriteTracksSafely(d: Deployment, w: World, n: NodeID, v: VolumeID)
    requires v in d.volumes && Writes(d, w, n, v) && !Removing(w, v)
    ensures SafelyTracked(Next(d, w, NodeStep(n, v, Ok)), n, v)
  {
    NodesLeaveController(d, w, n, v, Ok);
  }

  lemma TrackedFailsTest(d: Deployment, w: World, s: Step, n: NodeID, v: VolumeID)
    requires Tracked(w, n, v)
    ensures !PassesEmptyTest(d, w, s, v)
  {
  }

  /**
   Orphan prevention, over every interleaving: when a delete passes the empty test, each node whose file was
   written since has begun to unstage, or some delete of the volume has given up waiting, or a removal has
   crossed into the file system.
   */
  lemma EmptyMeansUnstaging(d: Deployment, w: World, steps: seq<Step>, s: Step, n: NodeID, v: VolumeID)
    requires PassesEmptyTest(d, Run(d, Next(d, w, NodeStep(n, v, Ok)), steps), s, v)
    requires v in d.volumes && Writes(d, w, n, v) && !OtherRemoving(w, v, s.r)
    ensures UntrackedDuring(d, Next(d, w, NodeStep(n, v, Ok)), steps, n, v)
  {
    var w1 := Next(d, w, NodeStep(n, v, Ok));
    NodesLeaveController(d, w, n, v, Ok);
    TesterIsNotRemoving(d, w1, steps, s.r, v);
    WriteTracksSafely(d, w, n, v);
    if !UntrackedDuring(d, w1, steps, n, v) {
      SafeUntilUntracked(d, w1, steps, n, v);
      TrackedFailsTest(d, Run(d, w1, steps), s, n, v);
    }
  }

  // ---- Who gave up --------------------------------------------------------------------------------------------

  /** The request has left the waiting loop for good. */
  predicate PastWaiting(w: World, r: RequestID)
  {
    r in w.requests && Rank(w.requests[r].phase) < Rank(CheckEmpty)
  }

  lemma PastWaitingNext(d: Deployment, w: World, s: Step, r: RequestID)
    requires PastWaiting(w, r)
    ensures PastWaiting(Next(d, w, s), r)
  {
    if s.ControllerStep? && s.r == r && w.requests[r].phase != Finished {
      StepsApproachEnd(w, w.requests[r], s.outcome);
      assert Repeats(w, w.requests[r], s.outcome) ==> NextRequest(w, w.requests[r], s.outcome) == w.requests[r];
    }
  }

  lemma {:induction false} PastWaitingStays(d: Deployment, w: World, steps: seq<Step>, r: RequestID)
    requires PastWaiting(w, r)
    ensures PastWaiting(Run(d, w, steps), r)
  {
    if steps != [] {
      PastWaitingStays(d, w, steps[..|steps| - 1], r);
      PastWaitingNext(d, Run(d, w, steps[..|steps| - 1]), steps[|steps| - 1], r);
    }
  }

  lemma {:induction false} RunSplits(d: Deployment, w: World, a: seq<Step>, b: seq<Step>)
    ensures Run(d, w, a + b) == Run(d, Run(d, w, a), b)
  {
    if b == [] {
      assert a + b == a;
    } else {
      RunSplits(d, w, a, b[..|b| - 1]);
      assert (a + b)[..|a + b| - 1] == a + b[..|b| - 1];
    }
  }

  lemma RunAround(d: Deployment, w: World, steps: seq<Step>, i: nat)
    requires i < |steps|
    ensures Run(d, w, steps) == Run(d, Next(d, Run(d, w, steps[..i]), steps[i]), steps[i + 1..])
  {
    assert steps[..i + 1][..i] == steps[..i];
    RunSplits(d, w, steps[..i + 1], steps[i + 1..]);
    assert steps[..i + 1] + steps[i + 1..] == steps;
  }

  lemma GiverLeaves(d: Deployment, w: World, s: Step, v: VolumeID)
    requires GivesUp(w, s, v) && Enabled(d, w, s)
    ensures PastWaiting(Next(d, w, s), s.r)
  {
  }

  predicate OtherRemoving(w: World, v: VolumeID, r: RequestID)
  {
    exists t :: t in w.requests && t != r && w.requests[t].volume == v && w.requests[t].phase == RemoveNodesDir
  }

  /** A request that is at the empty test later on is not removing the directory now. */
  lemma TesterIsNotRemoving(d: Deployment, w: World, steps: seq<Step>, r: RequestID, v: VolumeID)
    requires r in Run(d, w, steps).requests && Run(d, w, steps).requests[r].phase == CheckEmpty
    requires !OtherRemoving(w, v, r)
    ensures !Removing(w, v)
  {
    if t :| t in w.requests && w.requests[t].volume == v && w.requests[t].phase == RemoveNodesDir {
      assert t == r && PastWaiting(w, r);
      PastWaitingStays(d, w, steps, r);
    }
  }

  /** A request that gives up is not the one that is at the empty test later on. */
  lemma GiverIsAnother(d: Deployment, w: World, steps: seq<Step>, i: nat, v: VolumeID, r: RequestID)
    requires i < |steps| && GivesUp(Run(d, w, steps[..i]), steps[i], v) && Enabled(d, Run(d, w, steps[..i]), steps[i])
    requires r in Run(d, w, steps).requests && Run(d, w, steps).requests[r].phase == CheckEmpty
    ensures steps[i].r != r
    ensures steps[i].r in Run(d, w, steps).requests
  {
    GiverLeaves(d, Run(d, w, steps[..i]), steps[i], v);
    RunAround(d, w, steps, i);
    PastWaitingStays(d, Next(d, Run(d, w, steps[..i]), steps[i]), steps[i + 1..], steps[i].r);
  }

  /** Nobody but this request gives up waiting for nodes of the volume. */
  ghost predicate NoOtherGivesUp(d: Deployment, w: World, steps: seq<Step>, v: VolumeID, r: RequestID)
  {
    forall j :: 0 <= j < |steps| && GivesUp(Run(d, w, steps[..j]), steps[j], v) ==> steps[j].r == r
  }

  /**
   With one delete at a time: when it passes the empty test and nobody else has given up on the volume, each
   node whose file was written since has begun to unstage, or its file was wiped.
   */
  lemma SingleDeleteWaits(d: Deployment, w: World, steps: seq<Step>, s: Step, n: NodeID, v: VolumeID) returns (i: nat)
    requires PassesEmptyTest(d, Run(d, Next(d, w, NodeStep(n, v, Ok)), steps), s, v)
    requires v in d.volumes && Writes(d, w, n, v) && !OtherRemoving(w, v, s.r)
    requires NoOtherGivesUp(d, Next(d, w, NodeStep(n, v, Ok)), steps, v, s.r)
    ensures i < |steps|
    ensures
      var w1 := Run(d, Next(d, w, NodeStep(n, v, Ok)), steps[..i]);
      Enabled(d, w1, steps[i]) && (steps[i] == BeginRpc(n, v, UnstageCheck) || Wipes(d, w1, steps[i], v))
  {
    var w1 := Next(d, w, NodeStep(n, v, Ok));
    EmptyMeansUnstaging(d, w, steps, s, n, v);
    i :| 0 <= i < |steps| && UntracksAt(d, w1, steps, n, v, i);
    if GivesUp(Run(d, w1, steps[..i]), steps[i], v) {
      GiverIsAnother(d, w1, steps, i, v, s.r);
    }
  }
}
