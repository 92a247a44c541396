/** What the success of a node RPC means, and what an RPC for a volume that is not there never does. */
module LifecycleRpcs {
  import opened Lifecycle
  import opened LifecycleNodes
  import opened LifecycleTracking
  import opened LifecycleWipes

  // ---- Success ----------------------------------------------------------------------------------------------------

  /** The RPC ends with an error: tracking files are best effort, everything else counts. */
  predicate Errs(d: Deployment, w: World, n: NodeID, v: VolumeID, o: Outcome)
  {
    var h := Host(w, n);
    match RpcOf(h, v)
    case Idle => false
    case StageCheckDir => false
    case StageTrack => false
    case UnstageCheck => false
    case UnstageUntrack => false
    case StageStat(opts) => o != Ok || v !in w.volDirs
    case PublishStat(target) => o != Ok || v !in w.volDirs
    case UnstageList => o != Ok || RefusesUnmount(h.mounts, Exclude(d, n, v), ConfPath(d, n, v))
    case PublishBind(target) => o != Ok || !Mounted(d, n, h, v) || v !in w.volDirs || target in h.mounts
    case _ => o != Ok
  }

  /** The RPC is over after this step. */
  predicate Ends(d: Deployment, w: World, n: NodeID, v: VolumeID, o: Outcome)
  {
    RpcOf(Host(w, n), v) != Idle && RpcOf(NextHost(d, w, n, v, o), v) == Idle
  }

  lemma ErrorEnds(d: Deployment, w: World, n: NodeID, v: VolumeID, o: Outcome)
    requires Errs(d, w, n, v, o)
    ensures Ends(d, w, n, v, o)
  {
  }

  lemma StageSuccess(d: Deployment, w: World, n: NodeID, v: VolumeID, o: Outcome)
    requires VolumeOk(d, n, Host(w, n), v) && IsStaging(RpcOf(Host(w, n), v))
    requires Ends(d, w, n, v, o) && !Errs(d, w, n, v, o)
    ensures
      var w' := NodeNext(d, w, n, v, o);
      Staged(d, n, Host(w', n), v) && (v in w.nodesDirs && o == Ok ==> Tracked(w', n, v))
  {
  }

  lemma UnstageSuccess(d: Deployment, w: World, n: NodeID, v: VolumeID, o: Outcome)
    requires VolumeOk(d, n, Host(w, n), v) && TrackedOk(d, w, n, v) && IsUnstaging(RpcOf(Host(w, n), v))
    requires Ends(d, w, n, v, o) && !Errs(d, w, n, v, o)
    ensures
      var w' := NodeNext(d, w, n, v, o);
      var h' := Host(w', n);
      && !Mounted(d, n, h', v) && v !in h'.clientConf && NonePublished(d, n, h', v)
      && (Tracked(w', n, v) ==> v in h'.lostTrack)
  {
    var h, h' := Host(w, n), NextHost(d, w, n, v, o);
    assert h'.mounts == h.mounts;
    assert forall p :: Published(d, n, h', v, p) <==> Published(d, n, h, v, p);
  }

  lemma PublishSuccess(d: Deployment, w: World, n: NodeID, v: VolumeID, o: Outcome)
    requires VolumeOk(d, n, Host(w, n), v) && IsPublishing(RpcOf(Host(w, n), v))
    requires Ends(d, w, n, v, o) && !Errs(d, w, n, v, o)
    ensures
      var rpc, h, h' := RpcOf(Host(w, n), v), Host(w, n), NextHost(d, w, n, v, o);
      && !rpc.PublishStat?
      && (rpc.PublishCheck? ==> rpc.target in h'.mounts)
      && (rpc.PublishBind? ==> BoundAt(d, n, h', v, rpc.target) && Staged(d, n, h', v))
      && (rpc.Unpublish? ==> rpc.target !in h'.mounts)
  {
  }

  /**
   Over every run: when NodeStageVolume succeeds the volume is staged and, as far as the directory exists and can
   be written, tracked. When NodeUnstageVolume succeeds nothing of the volume is left on the node, and its
   tracking file is gone unless it was given up on. When NodePublishVolume succeeds something is mounted at the
   target, namely the staged volume if the target was free, and when NodeUnpublishVolume succeeds nothing is.
   */
  lemma RpcSuccess(d: Deployment, steps: seq<Step>, n: NodeID, v: VolumeID, o: Outcome)
    requires GoodDeployment(d)
    requires var w := Run(d, INITIAL, steps); Ends(d, w, n, v, o) && !Errs(d, w, n, v, o)
    ensures
      var w := Run(d, INITIAL, steps);
      var w' := NodeNext(d, w, n, v, o);
      var rpc, h' := RpcOf(Host(w, n), v), Host(w', n);
      && (IsStaging(rpc) ==> Staged(d, n, h', v) && (v in w.nodesDirs && o == Ok ==> Tracked(w', n, v)))
      && (IsUnstaging(rpc) ==>
            && !Mounted(d, n, h', v) && v !in h'.clientConf && NonePublished(d, n, h', v)
            && (Tracked(w', n, v) ==> v in h'.lostTrack))
      && !rpc.PublishStat?
      && (rpc.PublishCheck? ==> rpc.target in h'.mounts)
      && (rpc.PublishBind? ==> BoundAt(d, n, h', v, rpc.target) && Staged(d, n, h', v))
      && (rpc.Unpublish? ==> rpc.target !in h'.mounts)
  {
    NodesOkAlways(d, steps);
    TrackedOkAlways(d, steps, n, v);
    var w := Run(d, INITIAL, steps);
    assert HostOk(d, n, Host(w, n)) && VolumeOk(d, n, Host(w, n), v);
    var rpc := RpcOf(Host(w, n), v);
    if IsStaging(rpc) {
      StageSuccess(d, w, n, v, o);
    } else if IsUnstaging(rpc) {
      UnstageSuccess(d, w, n, v, o);
    } else {
      PublishSuccess(d, w, n, v, o);
    }
  }

  /** The steps that an RPC has left. */
  function Remaining(rpc: Rpc): (k: nat)
  {
    match rpc
    case Idle => 0
    case StageWrite(opts) => 5
    case StageStat(opts) => 4
    case StageMount(opts) => 3
    case StageCheckDir => 2
    case StageTrack => 1
    case UnstageCheck => 5
    case UnstageUntrack => 4
    case UnstageList => 3
    case UnstageUnmount => 2
    case UnstageClean => 1
    case PublishStat(target) => 3
    case PublishCheck(target) => 2
    case PublishBind(target) => 1
    case Unpublish(target) => 1
  }

  /** Whatever its calls do, an RPC is over after at most five steps. */
  lemma RpcsEnd(d: Deployment, w: World, n: NodeID, v: VolumeID, o: Outcome)
    requires RpcOf(Host(w, n), v) != Idle
    ensures Remaining(RpcOf(NextHost(d, w, n, v, o), v)) < Remaining(RpcOf(Host(w, n), v)) <= 5
  {
  }

  // ---- A volume that is not there -----------------------------------------------------------------------------------

  /** The RPC has looked for the volume's directory and is going to use it. */
  predicate PastLook(rpc: Rpc)
  {
    rpc.StageMount? || rpc.StageCheckDir? || rpc.StageTrack? || rpc.PublishCheck? || rpc.PublishBind?
  }

  lemma OwnStepWithoutDir(d: Deployment, w: World, n: NodeID, v: VolumeID, o: Outcome, p: string)
    requires v !in w.volDirs && !PastLook(RpcOf(Host(w, n), v))
    ensures !PastLook(RpcOf(NextHost(d, w, n, v, o), v))
    ensures BoundAt(d, n, NextHost(d, w, n, v, o), v, p) ==> BoundAt(d, n, Host(w, n), v, p)
  {
  }

  /** An RPC for one volume mounts nothing of another. */
  lemma OtherBindsNothing(d: Deployment, w: World, n: NodeID, u: VolumeID, o: Outcome, v: VolumeID, p: string)
    requires GoodDeployment(d) && u != v && VolumeOk(d, n, Host(w, n), u)
    ensures BoundAt(d, n, NextHost(d, w, n, u, o), v, p) ==> BoundAt(d, n, Host(w, n), v, p)
  {
    var h := Host(w, n);
    var rpc := RpcOf(h, u);
    if rpc.StageMount? {
      FreshStagingOk(d, n, u, rpc.opts, v);
    }
  }

  lemma NothingNewNext(d: Deployment, w: World, s: Step, n: NodeID, v: VolumeID, p: string)
    requires GoodDeployment(d) && NodesOk(d, w) && v !in w.volDirs && !PastLook(RpcOf(Host(w, n), v))
    ensures !PastLook(RpcOf(Host(Next(d, w, s), n), v))
    ensures BoundAt(d, n, Host(Next(d, w, s), n), v, p) ==> BoundAt(d, n, Host(w, n), v, p)
  {
    if Enabled(d, w, s) && s.NodeStep? && s.n == n {
      assert HostOk(d, n, Host(w, n)) && VolumeOk(d, n, Host(w, n), s.volume);
      if s.volume == v {
        OwnStepWithoutDir(d, w, n, v, s.outcome, p);
      } else {
        OtherBindsNothing(d, w, n, s.volume, s.outcome, v, p);
      }
    }
  }

  /**
   From every state of a run in which the volume's directory is missing and no RPC of the node has found it: as
   long as nobody makes it, no RPC gets past looking for it, and neither a staging mount nor a bind mount of the
   volume appears on the node.
   */
  lemma {:induction false} MissingIsNeverMounted(d: Deployment, w: World, steps: seq<Step>, n: NodeID, v: VolumeID,
      p: string)
    requires GoodDeployment(d) && NodesOk(d, w) && v !in w.volDirs && !PastLook(RpcOf(Host(w, n), v))
    requires !EverMade(d, w, steps, v)
    ensures NodesOk(d, Run(d, w, steps)) && v !in Run(d, w, steps).volDirs
    ensures !PastLook(RpcOf(Host(Run(d, w, steps), n), v))
    ensures BoundAt(d, n, Host(Run(d, w, steps), n), v, p) ==> BoundAt(d, n, Host(w, n), v, p)
  {
    if steps != [] {
      var k := |steps| - 1;
      var before := Run(d, w, steps[..k]);
      MadeStep(d, w, steps, v);
      MissingIsNeverMounted(d, w, steps[..k], n, v, p);
      NodesOkNext(d, before, steps[k]);
      DirNext(d, before, steps[k], v);
      NothingNewNext(d, before, steps[k], n, v, p);
    }
  }

  // ---- An RPC does what it was called for ---------------------------------------------------------------------------

  /** What may become of an RPC that was begun like this. */
  predicate ComesFrom(rpc: Rpc, begun: Rpc)
  {
    match rpc
    case Idle => true
    case StageWrite(opts) => begun == StageWrite(opts)
    case StageStat(opts) => begun == StageWrite(opts)
    case StageMount(opts) => begun == StageWrite(opts)
    case StageCheckDir => begun.StageWrite?
    case StageTrack => begun.StageWrite?
    case PublishStat(target) => begun == PublishStat(target)
    case PublishCheck(target) => begun == PublishStat(target)
    case PublishBind(target) => begun == PublishStat(target)
    case Unpublish(target) => begun == Unpublish(target)
    case _ => begun == UnstageCheck
  }

  ghost predicate NoneBegun(steps: seq<Step>, n: NodeID, v: VolumeID)
  {
    forall i :: 0 <= i < |steps| ==> !(steps[i].BeginRpc? && steps[i].n == n && steps[i].volume == v)
  }

  /** A staging mount with these options. */
  predicate MountedWith(d: Deployment, n: NodeID, h: NodeHost, v: VolumeID, opts: seq<string>)
  {
    Mounted(d, n, h, v) ==> h.mounts[MountPath(d, n, v)] == MountEntry("beegfs_nodev", opts + [CfgOption(d, n, v)])
  }

  /** The staging mount is the one that was there, and a staging RPC finds it there. */
  predicate StillMountedAs(d: Deployment, n: NodeID, h: NodeHost, v: VolumeID, entry: MountEntry)
  {
    && (Mounted(d, n, h, v) ==> h.mounts[MountPath(d, n, v)] == entry)
    && (IsStaging(RpcOf(h, v)) ==> Mounted(d, n, h, v))
  }

  lemma RpcNextComesFrom(d: Deployment, w: World, n: NodeID, v: VolumeID, o: Outcome, begun: Rpc)
    requires ComesFrom(RpcOf(Host(w, n), v), begun)
    ensures ComesFrom(RpcOf(NextHost(d, w, n, v, o), v), begun)
  {
  }

  lemma StaysMountedWith(d: Deployment, w: World, n: NodeID, v: VolumeID, o: Outcome, opts: seq<string>)
    requires ComesFrom(RpcOf(Host(w, n), v), StageWrite(opts)) && MountedWith(d, n, Host(w, n), v, opts)
    ensures MountedWith(d, n, NextHost(d, w, n, v, o), v, opts)
  {
  }

  lemma ComesFromNext(d: Deployment, w: World, s: Step, n: NodeID, v: VolumeID, begun: Rpc)
    requires !(s.BeginRpc? && s.n == n && s.volume == v) && ComesFrom(RpcOf(Host(w, n), v), begun)
    ensures ComesFrom(RpcOf(Host(Next(d, w, s), n), v), begun)
  {
    if Enabled(d, w, s) && s.NodeStep? && s.n == n && s.volume == v {
      RpcNextComesFrom(d, w, n, v, s.outcome, begun);
    }
  }

  lemma MountedWithNext(d: Deployment, w: World, s: Step, n: NodeID, v: VolumeID, opts: seq<string>)
    requires GoodDeployment(d) && NodesOk(d, w)
    requires ComesFrom(RpcOf(Host(w, n), v), StageWrite(opts)) && MountedWith(d, n, Host(w, n), v, opts)
    ensures MountedWith(d, n, Host(Next(d, w, s), n), v, opts)
  {
    if Enabled(d, w, s) && s.NodeStep? && s.n == n {
      if s.volume == v {
        StaysMountedWith(d, w, n, v, s.outcome, opts);
      } else {
        assert HostOk(d, n, Host(w, n)) && VolumeOk(d, n, Host(w, n), s.volume);
        OtherVolumeQuiet(d, w, n, s.volume, s.outcome, v);
      }
    }
  }

  lemma OwnStepKeepsEntry(d: Deployment, w: World, n: NodeID, v: VolumeID, o: Outcome, entry: MountEntry)
    requires VolumeOk(d, n, Host(w, n), v) && StillMountedAs(d, n, Host(w, n), v, entry)
    ensures StillMountedAs(d, n, NextHost(d, w, n, v, o), v, entry)
  {
  }

  lemma StillMountedNext(d: Deployment, w: World, s: Step, n: NodeID, v: VolumeID, entry: MountEntry)
    requires GoodDeployment(d) && NodesOk(d, w) && StillMountedAs(d, n, Host(w, n), v, entry)
    requires !(s.BeginRpc? && s.n == n && s.volume == v)
    ensures StillMountedAs(d, n, Host(Next(d, w, s), n), v, entry)
  {
    if Enabled(d, w, s) && s.NodeStep? && s.n == n {
      assert HostOk(d, n, Host(w, n)) && VolumeOk(d, n, Host(w, n), s.volume);
      if s.volume == v {
        OwnStepKeepsEntry(d, w, n, v, s.outcome, entry);
      } else {
        OtherVolumeQuiet(d, w, n, s.volume, s.outcome, v);
      }
    }
  }

  /**
   On every run, until the next RPC for the volume begins, the node does nothing for it but what this one was
   called for, with the same target. If the volume was mounted before, a staging mount is still that one; if not, it
   has exactly the requested options and the volume's own client configuration.
   */
  lemma {:induction false} DoesWhatItWasCalledFor(d: Deployment, w: World, steps: seq<Step>, n: NodeID, v: VolumeID,
      begun: Rpc)
    requires GoodDeployment(d) && NodesOk(d, w) && NoneBegun(steps, n, v)
    requires RpcOf(Host(w, n), v) == begun && RpcStart(d, n, begun)
    ensures ComesFrom(RpcOf(Host(Run(d, w, steps), n), v), begun)
    ensures begun.StageWrite? && !Mounted(d, n, Host(w, n), v) ==>
      MountedWith(d, n, Host(Run(d, w, steps), n), v, begun.opts)
    ensures Mounted(d, n, Host(w, n), v) ==>
      StillMountedAs(d, n, Host(Run(d, w, steps), n), v, Host(w, n).mounts[MountPath(d, n, v)])
    ensures NodesOk(d, Run(d, w, steps))
  {
    if steps != [] {
      var k := |steps| - 1;
      DoesWhatItWasCalledFor(d, w, steps[..k], n, v, begun);
      NodesOkNext(d, Run(d, w, steps[..k]), steps[k]);
      ComesFromNext(d, Run(d, w, steps[..k]), steps[k], n, v, begun);
      if begun.StageWrite? && !Mounted(d, n, Host(w, n), v) {
        MountedWithNext(d, Run(d, w, steps[..k]), steps[k], n, v, begun.opts);
      }
      if Mounted(d, n, Host(w, n), v) {
        StillMountedNext(d, Run(d, w, steps[..k]), steps[k], n, v, Host(w, n).mounts[MountPath(d, n, v)]);
      }
    }
  }

  /** Once an unstage has dealt with the tracking file, its RPC does not come back to it. */
  lemma {:induction false} NotAgain(d: Deployment, w: World, steps: seq<Step>, n: NodeID, v: VolumeID)
    requires NoneBegun(steps, n, v) && (PastUntrack(RpcOf(Host(w, n), v)) || RpcOf(Host(w, n), v) == Idle)
    ensures
      var rpc := RpcOf(Host(Run(d, w, steps), n), v);
      PastUntrack(rpc) || rpc == Idle
  {
    if steps != [] {
      NotAgain(d, w, steps[..|steps| - 1], n, v);
      NotAgainNext(d, Run(d, w, steps[..|steps| - 1]), steps[|steps| - 1], n, v);
    }
  }

  lemma NotAgainNext(d: Deployment, w: World, s: Step, n: NodeID, v: VolumeID)
    requires !(s.BeginRpc? && s.n == n && s.volume == v)
    requires PastUntrack(RpcOf(Host(w, n), v)) || RpcOf(Host(w, n), v) == Idle
    ensures var rpc := RpcOf(Host(Next(d, w, s), n), v); PastUntrack(rpc) || rpc == Idle
  {
    if s.NodeStep? && s.n == n && s.volume == v && Enabled(d, w, s) {
      assert Host(Next(d, w, s), n) == NextHost(d, w, n, v, s.outcome);
    }
  }

  /** An unstage that cannot look for its tracking file, or finds none, goes on without touching it. */
  lemma LeavesFileAlone(d: Deployment, w: World, o: Outcome, steps: seq<Step>, n: NodeID, v: VolumeID)
    requires NoneBegun(steps, n, v) && RpcOf(Host(w, n), v) == UnstageCheck && Enabled(d, w, NodeStep(n, v, o))
    requires o != Ok || !Tracked(w, n, v) || !Mounted(d, n, Host(w, n), v)
    ensures
      var w1 := Next(d, w, NodeStep(n, v, o));
      RpcOf(Host(w1, n), v) == UnstageList && RpcOf(Host(Run(d, w1, steps), n), v) != UnstageUntrack
  {
    NotAgain(d, Next(d, w, NodeStep(n, v, o)), steps, n, v);
  }

  // ---- Lost track ---------------------------------------------------------------------------------------------------

  /** By this step the node loses track of its file: an unstage cannot handle it, or a reboot leaves it behind. */
  ghost predicate LosesTrack(d: Deployment, w: World, s: Step, n: NodeID, v: VolumeID)
  {
    var rpc := RpcOf(Host(w, n), v);
    || (s.NodeStep? && s.n == n && s.volume == v && Enabled(d, w, s) && s.outcome != Ok
        && (rpc == UnstageCheck || rpc == UnstageUntrack))
    || (s == RebootNode(n) && Tracked(w, n, v))
  }

  /** By this step the node gets hold of its file again: it mounts the volume anew, or removes the file. */
  ghost predicate FindsTrack(d: Deployment, w: World, s: Step, n: NodeID, v: VolumeID)
  {
    var rpc := RpcOf(Host(w, n), v);
    s == NodeStep(n, v, Ok) && Enabled(d, w, s) && (rpc.StageMount? || rpc == UnstageUntrack)
  }

  /** On the run, the node has lost track of the volume and not found it again. */
  ghost predicate LostSince(d: Deployment, steps: seq<Step>, n: NodeID, v: VolumeID)
  {
    steps != []
    && var k := |steps| - 1;
       var w := Run(d, INITIAL, steps[..k]);
       LosesTrack(d, w, steps[k], n, v) || (LostSince(d, steps[..k], n, v) && !FindsTrack(d, w, steps[k], n, v))
  }

  lemma LostNext(d: Deployment, w: World, s: Step, n: NodeID, v: VolumeID)
    ensures
      v in Host(Next(d, w, s), n).lostTrack <==>
        LosesTrack(d, w, s, n, v) || (v in Host(w, n).lostTrack && !FindsTrack(d, w, s, n, v))
  {
  }

  /** Over every run, a node counts as having lost track of a volume exactly if it has, and has not found it again. */
  lemma {:induction false} LostTrackExactly(d: Deployment, steps: seq<Step>, n: NodeID, v: VolumeID)
    ensures v in Host(Run(d, INITIAL, steps), n).lostTrack <==> LostSince(d, steps, n, v)
  {
    if steps != [] {
      var k := |steps| - 1;
      LostTrackExactly(d, steps[..k], n, v);
      LostNext(d, Run(d, INITIAL, steps[..k]), steps[k], n, v);
    }
  }
}
