/** The nodes over whole runs: a published volume is staged. */
module LifecycleNodes {
  import opened GoStrings
  import opened Lifecycle

  // ---- Names ----------------------------------------------------------------------------------------------

  lemma SuffixInjective(a: string, b: string, suffix: string)
    requires a + suffix == b + suffix
    ensures a == b
  {
    assert |a| == |b|;
    assert a == (a + suffix)[..|a|] && b == (b + suffix)[..|b|];
  }

  /** Staging mount points and client configurations of different volumes on a node are different. */
  lemma NamesInjective(d: Deployment, n: NodeID, u: VolumeID, v: VolumeID)
    requires GoodDeployment(d)
    ensures MountPath(d, n, u) == MountPath(d, n, v) ==> u == v
    ensures CfgOption(d, n, u) == CfgOption(d, n, v) ==> u == v
  {
    if MountPath(d, n, u) == MountPath(d, n, v) {
      SuffixInjective(d.staging(n, u), d.staging(n, v), "/mount");
    }
    if CfgOption(d, n, u) == CfgOption(d, n, v) {
      assert CfgOption(d, n, u)[8..] == ConfPath(d, n, u) && CfgOption(d, n, v)[8..] == ConfPath(d, n, v);
      SuffixInjective(d.staging(n, u), d.staging(n, v), "/beegfs-client.conf");
    }
  }

  // ---- Published implies staged ------------------------------------------------------------------------------

  /** A mount of the file system staged with this volume's client configuration. */
  predicate MountOf(d: Deployment, n: NodeID, v: VolumeID, entry: MountEntry)
  {
    entry.device == DEVICE && CfgOption(d, n, v) in entry.opts
  }

  /** A mount of the volume, its staging mount or a bind mount of it, seen by the scan or not. */
  predicate BoundAt(d: Deployment, n: NodeID, h: NodeHost, v: VolumeID, p: string)
  {
    p in h.mounts && MountOf(d, n, v, h.mounts[p])
  }

  /** A bind mount of the volume that the scan of the mount list does not pass over. */
  predicate Published(d: Deployment, n: NodeID, h: NodeHost, v: VolumeID, p: string)
  {
    p in h.mounts && p != MountPath(d, n, v) && MountOf(d, n, v, h.mounts[p]) && !Contains(p, Exclude(d, n, v))
  }

  ghost predicate NonePublished(d: Deployment, n: NodeID, h: NodeHost, v: VolumeID)
  {
    forall p :: !Published(d, n, h, v, p)
  }

  predicate Staged(d: Deployment, n: NodeID, h: NodeHost, v: VolumeID)
  {
    Mounted(d, n, h, v) && v in h.clientConf
  }

  /** The staging mount carries the client configuration of its own volume and of no other. */
  ghost predicate StagingOk(d: Deployment, n: NodeID, h: NodeHost, v: VolumeID)
  {
    Mounted(d, n, h, v) ==>
      && v in h.clientConf
      && (forall u :: MountOf(d, n, u, h.mounts[MountPath(d, n, v)]) <==> u == v)
  }

  ghost predicate RpcOk(d: Deployment, n: NodeID, h: NodeHost, v: VolumeID)
  {
    match RpcOf(h, v)
    case StageWrite(opts) => CfgFree(opts)
    case StageStat(opts) => CfgFree(opts) && v in h.clientConf
    case StageMount(opts) => CfgFree(opts) && v in h.clientConf
    case StageCheckDir => Mounted(d, n, h, v)
    case StageTrack => Mounted(d, n, h, v)
    case UnstageUntrack => Mounted(d, n, h, v)
    case UnstageUnmount => NonePublished(d, n, h, v)
    case UnstageClean => NonePublished(d, n, h, v) && !Mounted(d, n, h, v)
    case PublishStat(target) => TargetOk(d, n, target)
    case PublishCheck(target) => TargetOk(d, n, target)
    case PublishBind(target) => TargetOk(d, n, target)
    case Unpublish(target) => TargetOk(d, n, target)
    case _ => true
  }

  ghost predicate VolumeOk(d: Deployment, n: NodeID, h: NodeHost, v: VolumeID)
  {
    && StagingOk(d, n, h, v)
    && RpcOk(d, n, h, v)
    && (forall p :: Published(d, n, h, v, p) ==> Staged(d, n, h, v))
  }

  ghost predicate HostOk(d: Deployment, n: NodeID, h: NodeHost)
  {
    forall v :: VolumeOk(d, n, h, v)
  }

  /** The scan of the mount list recognises every published volume. */
  lemma PublishedLooksBound(d: Deployment, n: NodeID, h: NodeHost, v: VolumeID, p: string)
    requires Published(d, n, h, v, p)
    ensures LooksBound(p, h.mounts[p], Exclude(d, n, v), ConfPath(d, n, v))
  {
    var opts := h.mounts[p].opts;
    var i :| 0 <= i < |opts| && opts[i] == CfgOption(d, n, v);
    ContainsInside("cfgFile=", ConfPath(d, n, v), "");
    assert opts[i] == "cfgFile=" + ConfPath(d, n, v) + "";
  }

  lemma QuietScan(d: Deployment, n: NodeID, h: NodeHost, v: VolumeID)
    requires !RefusesUnmount(h.mounts, Exclude(d, n, v), ConfPath(d, n, v))
    ensures NonePublished(d, n, h, v)
  {
    forall p ensures Published(d, n, h, v, p) ==> LooksBound(p, h.mounts[p], Exclude(d, n, v), ConfPath(d, n, v)) {
      if Published(d, n, h, v, p) {
        PublishedLooksBound(d, n, h, v, p);
      }
    }
  }

  /** The options of a fresh staging mount name exactly one volume. */
  lemma FreshStagingOk(d: Deployment, n: NodeID, v: VolumeID, opts: seq<string>, u: VolumeID)
    requires GoodDeployment(d) && CfgFree(opts)
    ensures MountOf(d, n, u, MountEntry(DEVICE, opts + [CfgOption(d, n, v)])) <==> u == v
  {
    var all := opts + [CfgOption(d, n, v)];
    assert all[|opts|] == CfgOption(d, n, v);
    NamesInjective(d, n, u, v);
    if CfgOption(d, n, u) in all {
      var i :| 0 <= i < |all| && all[i] == CfgOption(d, n, u);
      assert CfgOption(d, n, u)[..8] == "cfgFile=";
      assert i < |opts| ==> all[i] == opts[i];
    }
  }

  // ---- Steps of one node ----------------------------------------------------------------------------------

  function NextHost(d: Deployment, w: World, n: NodeID, v: VolumeID, o: Outcome): (h: NodeHost)
  {
    NodeNext(d, w, n, v, o).nodes[n]
  }

  /** A mount that appears or disappears somewhere concerns a volume only if it is its own. */
  ghost predicate MountsQuietFor(d: Deployment, n: NodeID, h: NodeHost, h': NodeHost, u: VolumeID)
  {
    && (Mounted(d, n, h', u) <==> Mounted(d, n, h, u))
    && (Mounted(d, n, h, u) ==> h'.mounts[MountPath(d, n, u)] == h.mounts[MountPath(d, n, u)])
    && (forall p :: Published(d, n, h', u, p) ==> Published(d, n, h, u, p))
  }

  lemma QuietKeepsOk(d: Deployment, n: NodeID, h: NodeHost, h': NodeHost, u: VolumeID)
    requires VolumeOk(d, n, h, u) && MountsQuietFor(d, n, h, h', u)
    requires RpcOf(h', u) == RpcOf(h, u) && (u in h'.clientConf <==> u in h.clientConf)
    ensures VolumeOk(d, n, h', u)
  {
  }

  lemma AddedMountQuiet(d: Deployment, n: NodeID, h: NodeHost, h': NodeHost, p: string, entry: MountEntry, u: VolumeID)
    requires p !in h.mounts && h'.mounts == h.mounts[p := entry] && !MountOf(d, n, u, entry) && p != MountPath(d, n, u)
    ensures MountsQuietFor(d, n, h, h', u)
  {
    forall q | Published(d, n, h', u, q) ensures Published(d, n, h, u, q) {
      assert q != p;
    }
  }

  lemma RemovedMountQuiet(d: Deployment, n: NodeID, h: NodeHost, h': NodeHost, p: string, u: VolumeID)
    requires h'.mounts == h.mounts - {p} && p != MountPath(d, n, u)
    ensures MountsQuietFor(d, n, h, h', u)
  {
  }

  /** What a step for one volume does to the mount table is no concern of any other volume. */
  lemma OtherVolumeQuiet(d: Deployment, w: World, n: NodeID, v: VolumeID, o: Outcome, u: VolumeID)
    requires GoodDeployment(d) && u != v && VolumeOk(d, n, Host(w, n), v)
    ensures MountsQuietFor(d, n, Host(w, n), NextHost(d, w, n, v, o), u)
  {
    var h, h' := Host(w, n), NextHost(d, w, n, v, o);
    NamesInjective(d, n, u, v);
    if h'.mounts != h.mounts {
      match RpcOf(h, v)
      case StageMount(opts) =>
        FreshStagingOk(d, n, v, opts, u);
        AddedMountQuiet(d, n, h, h', MountPath(d, n, v), MountEntry(DEVICE, opts + [CfgOption(d, n, v)]), u);
      case UnstageUnmount => RemovedMountQuiet(d, n, h, h', MountPath(d, n, v), u);
      case PublishBind(target) => AddedMountQuiet(d, n, h, h', target, h.mounts[MountPath(d, n, v)], u);
      case Unpublish(target) => RemovedMountQuiet(d, n, h, h', target, u);
    }
  }

  predicate IsStaging(rpc: Rpc)
  {
    rpc.StageWrite? || rpc.StageStat? || rpc.StageMount? || rpc.StageCheckDir? || rpc.StageTrack?
  }

  predicate IsUnstaging(rpc: Rpc)
  {
    rpc.UnstageCheck? || rpc.UnstageUntrack? || rpc.UnstageList? || rpc.UnstageUnmount? || rpc.UnstageClean?
  }

  predicate IsPublishing(rpc: Rpc)
  {
    rpc.Idle? || rpc.PublishStat? || rpc.PublishCheck? || rpc.PublishBind? || rpc.Unpublish?
  }

  lemma StageKeepsOk(d: Deployment, w: World, n: NodeID, v: VolumeID, o: Outcome)
    requires GoodDeployment(d) && VolumeOk(d, n, Host(w, n), v)
    requires IsStaging(RpcOf(Host(w, n), v))
    ensures VolumeOk(d, n, NextHost(d, w, n, v, o), v)
  {
    var h, h' := Host(w, n), NextHost(d, w, n, v, o);
    var rpc := RpcOf(h, v);
    if rpc.StageMount? && Applies(o) && !Mounted(d, n, h, v) {
      forall u ensures MountOf(d, n, u, h'.mounts[MountPath(d, n, v)]) <==> u == v {
        FreshStagingOk(d, n, v, rpc.opts, u);
      }
      assert forall p :: Published(d, n, h', v, p) ==> Published(d, n, h, v, p);
    } else {
      assert h'.mounts == h.mounts;
      assert forall p :: Published(d, n, h', v, p) <==> Published(d, n, h, v, p);
    }
  }

  lemma UnstageKeepsOk(d: Deployment, w: World, n: NodeID, v: VolumeID, o: Outcome)
    requires GoodDeployment(d) && VolumeOk(d, n, Host(w, n), v)
    requires IsUnstaging(RpcOf(Host(w, n), v))
    ensures VolumeOk(d, n, NextHost(d, w, n, v, o), v)
  {
    var h, h' := Host(w, n), NextHost(d, w, n, v, o);
    if RpcOf(h, v) == UnstageList && RpcOf(h', v) == UnstageUnmount {
      QuietScan(d, n, h, v);
    }
    assert forall p :: Published(d, n, h', v, p) ==> Published(d, n, h, v, p);
    assert Mounted(d, n, h', v) ==> h'.mounts[MountPath(d, n, v)] == h.mounts[MountPath(d, n, v)];
  }

  lemma PublishKeepsOk(d: Deployment, w: World, n: NodeID, v: VolumeID, o: Outcome)
    requires GoodDeployment(d) && VolumeOk(d, n, Host(w, n), v)
    requires IsPublishing(RpcOf(Host(w, n), v))
    ensures VolumeOk(d, n, NextHost(d, w, n, v, o), v)
  {
    var h, h' := Host(w, n), NextHost(d, w, n, v, o);
    assert h'.clientConf == h.clientConf && (Mounted(d, n, h', v) <==> Mounted(d, n, h, v));
    assert Mounted(d, n, h, v) ==> h'.mounts[MountPath(d, n, v)] == h.mounts[MountPath(d, n, v)];
    assert forall p :: Published(d, n, h', v, p) ==> Published(d, n, h, v, p) || Mounted(d, n, h, v);
  }

  lemma NodeStepKeepsOk(d: Deployment, w: World, n: NodeID, v: VolumeID, o: Outcome)
    requires GoodDeployment(d) && HostOk(d, n, Host(w, n))
    ensures HostOk(d, n, NextHost(d, w, n, v, o))
  {
    var h, h' := Host(w, n), NextHost(d, w, n, v, o);
    forall u ensures VolumeOk(d, n, h', u) {
      assert VolumeOk(d, n, h, u) && VolumeOk(d, n, h, v);
      if u != v {
        OtherVolumeQuiet(d, w, n, v, o, u);
        QuietKeepsOk(d, n, h, h', u);
      } else {
        var rpc := RpcOf(h, v);
        if IsStaging(rpc) {
          StageKeepsOk(d, w, n, v, o);
        } else if IsPublishing(rpc) {
          PublishKeepsOk(d, w, n, v, o);
        } else {
          UnstageKeepsOk(d, w, n, v, o);
        }
      }
    }
  }

  lemma BeginKeepsOk(d: Deployment, w: World, n: NodeID, v: VolumeID, rpc: Rpc)
    requires HostOk(d, n, Host(w, n)) && Enabled(d, w, BeginRpc(n, v, rpc))
    ensures HostOk(d, n, Host(w, n).(rpcs := Host(w, n).rpcs[v := rpc]))
  {
    var h := Host(w, n);
    var h' := h.(rpcs := h.rpcs[v := rpc]);
    forall u ensures VolumeOk(d, n, h', u) {
      assert VolumeOk(d, n, h, u);
      assert forall p :: Published(d, n, h', u, p) <==> Published(d, n, h, u, p);
    }
  }

  lemma RestartKeepsOk(d: Deployment, n: NodeID, h: NodeHost)
    requires HostOk(d, n, h)
    ensures HostOk(d, n, h.(rpcs := map[]))
  {
    var h' := h.(rpcs := map[]);
    forall u ensures VolumeOk(d, n, h', u) {
      assert VolumeOk(d, n, h, u);
      assert forall p :: Published(d, n, h', u, p) <==> Published(d, n, h, u, p);
    }
  }

  lemma RebootKeepsOk(d: Deployment, n: NodeID, h: NodeHost)
    requires h.mounts == map[] && h.rpcs == map[]
    ensures HostOk(d, n, h)
  {
  }

  ghost predicate NodesOk(d: Deployment, w: World)
  {
    forall n :: HostOk(d, n, Host(w, n))
  }

  lemma NodesOkNext(d: Deployment, w: World, s: Step)
    requires GoodDeployment(d) && NodesOk(d, w)
    ensures NodesOk(d, Next(d, w, s))
  {
    var w' := Next(d, w, s);
    forall m ensures HostOk(d, m, Host(w', m)) {
      assert HostOk(d, m, Host(w, m));
      if Enabled(d, w, s) && s.NodeStep? && s.n == m {
        NodeStepKeepsOk(d, w, m, s.volume, s.outcome);
      } else if Enabled(d, w, s) && s.BeginRpc? && s.n == m {
        BeginKeepsOk(d, w, m, s.volume, s.rpc);
      } else if Enabled(d, w, s) && s.RestartNode? && s.n == m {
        RestartKeepsOk(d, m, Host(w, m));
      } else if Enabled(d, w, s) && s.RebootNode? && s.n == m {
        RebootKeepsOk(d, m, Rebooted(w, m));
      } else {
        assert Host(w', m) == Host(w, m);
      }
    }
  }

  lemma {:induction false} NodesOkAlways(d: Deployment, steps: seq<Step>)
    requires GoodDeployment(d)
    ensures NodesOk(d, Run(d, INITIAL, steps))
  {
    if steps == [] {
      forall n, v ensures VolumeOk(d, n, NO_HOST, v) {
      }
    } else {
      NodesOkAlways(d, steps[..|steps| - 1]);
      NodesOkNext(d, Run(d, INITIAL, steps[..|steps| - 1]), steps[|steps| - 1]);
    }
  }

  /** Over every run, a volume that is published on a node still has its staging mount and its client configuration. */
  lemma PublishedImpliesStaged(d: Deployment, steps: seq<Step>, n: NodeID, v: VolumeID, p: string)
    requires GoodDeployment(d) && Published(d, n, Host(Run(d, INITIAL, steps), n), v, p)
    ensures Staged(d, n, Host(Run(d, INITIAL, steps), n), v)
  {
    NodesOkAlways(d, steps);
    var h := Host(Run(d, INITIAL, steps), n);
    assert HostOk(d, n, h) && VolumeOk(d, n, h, v);
  }
}
