/**
 Two exact conditions on a configuration file: when its node sections make the driver panic on a nil
 map, and when the precedence the code implements differs from the one the documentation states.
 */
module ConfigPrecedence {
  import opened Wrappers
  import opened ConfigMerge
  import opened ConfigLayers

  // ---- Writing to a nil beegfsClientConf map ------------------------------------------------------

  /** Some node section that applies here sets beegfs-client.conf keys by default. */
  predicate NodeDefaultsSetKeys(nodes: seq<NodeEntry>, nodeID: string)
  {
    exists i :: 0 <= i < |nodes| && Names(nodes[i], nodeID) && Entries(nodes[i].defaults) != map[]
  }

  /**
   An override of this host would be written into an entry without a map. The targets are the host's
   entries outside the node sections or, when there are none, the first entry a node section adds.
   */
  predicate NilTarget(listed: seq<FsEntry>, earlier: seq<FsEntry>, host: string)
  {
    if exists i :: 0 <= i < |listed| && listed[i].host == host then
      exists i :: 0 <= i < |listed| && listed[i].host == host && listed[i].config.conf.None?
    else
      exists i :: 0 <= i < |earlier| && earlier[i].host == host && earlier[i].config.conf.None?
                  && forall j :: 0 <= j < i ==> earlier[j].host != host
  }

  predicate OverridesNilTarget(listed: seq<FsEntry>, overrides: seq<FsEntry>)
  {
    exists j: nat :: j < |overrides| && OverridesAt(listed, overrides, j)
  }

  predicate OverridesAt(listed: seq<FsEntry>, overrides: seq<FsEntry>, j: nat)
    requires j < |overrides|
  {
    Entries(overrides[j].config) != map[] && NilTarget(listed, overrides[..j], overrides[j].host)
  }

  predicate WritesToNilMap(raw: RawConfig, nodeID: string)
  {
    (raw.plugin.defaults.conf.None? && NodeDefaultsSetKeys(raw.nodes, nodeID))
    || OverridesNilTarget(raw.plugin.fileSystems, NodeFileSystems(raw.nodes, nodeID))
  }

  lemma HasHostConcat(a: seq<FsEntry>, b: seq<FsEntry>, host: string)
    ensures HasHost(a + b, host) <==> HasHost(a, host) || HasHost(b, host)
  {
    if HasHost(a, host) {
      var i :| 0 <= i < |a| && a[i].host == host;
      assert (a + b)[i].host == host;
    }
    if HasHost(b, host) {
      var i :| 0 <= i < |b| && b[i].host == host;
      assert (a + b)[|a| + i].host == host;
    }
  }

  /** Overwriting in place changes neither which hosts are listed nor which of their maps are nil. */
  lemma NilTargetOverwriteEach(to: seq<FsEntry>, o: FsEntry, later: seq<FsEntry>, host: string)
    requires HasHost(to, o.host)
    ensures NilTarget(OverwriteEach(to, o), later, host) <==> NilTarget(to, [o] + later, host)
  {
    var each := OverwriteEach(to, o);
    assert HasHost(each, host) <==> HasHost(to, host) by {
      if HasHost(to, host) {
        var i :| 0 <= i < |to| && to[i].host == host;
        assert each[i].host == host;
      }
    }
    if HasHost(to, host) {
      if NilTarget(to, [o] + later, host) {
        var i :| 0 <= i < |to| && to[i].host == host && to[i].config.conf.None?;
        assert each[i].host == host && each[i].config.conf.None?;
      }
    } else {
      SkipOtherHost(to, o, later, host);
    }
  }

  /** The first of these entries that is the host's has no map. */
  predicate FirstIsNil(entries: seq<FsEntry>, host: string)
  {
    exists i :: 0 <= i < |entries| && entries[i].host == host && entries[i].config.conf.None?
                && forall j :: 0 <= j < i ==> entries[j].host != host
  }

  lemma FirstIsNilCons(o: FsEntry, later: seq<FsEntry>, host: string)
    ensures FirstIsNil([o] + later, host) <==> if o.host == host then o.config.conf.None? else FirstIsNil(later, host)
  {
    var all := [o] + later;
    assert all[0] == o && forall i :: 0 < i < |all| ==> all[i] == later[i - 1];
    if o.host != host && FirstIsNil(later, host) {
      var i :| 0 <= i < |later| && later[i].host == host && later[i].config.conf.None?
        && forall j :: 0 <= j < i ==> later[j].host != host;
      assert all[i + 1] == later[i] && forall j :: 0 <= j < i + 1 ==> all[j].host != host;
    }
    if o.host != host && FirstIsNil(all, host) {
      var i :| 0 <= i < |all| && all[i].host == host && all[i].config.conf.None?
        && forall j :: 0 <= j < i ==> all[j].host != host;
      assert later[i - 1] == all[i] && forall j :: 0 <= j < i - 1 ==> later[j] == all[j + 1];
    }
  }

  lemma SkipOtherHost(to: seq<FsEntry>, o: FsEntry, later: seq<FsEntry>, host: string)
    requires !HasHost(to, host) && o.host != host
    ensures NilTarget(to, [o] + later, host) <==> NilTarget(to, later, host)
  {
    FirstIsNilCons(o, later, host);
  }

  lemma NilTargetAppend(to: seq<FsEntry>, o: FsEntry, later: seq<FsEntry>, host: string)
    requires !HasHost(to, o.host)
    ensures NilTarget(to + [o], later, host) <==> NilTarget(to, [o] + later, host)
  {
    var all := to + [o];
    assert all[|to|] == o && forall i :: 0 <= i < |to| ==> all[i] == to[i];
    HasHostConcat(to, [o], host);
    FirstIsNilCons(o, later, host);
    if o.host == host {
      assert HasHost(all, host) && !HasHost(to, host);
      assert NilTarget(all, later, host) <==> all[|to|].config.conf.None?;
    } else if HasHost(to, host) {
      NilListedAppend(to, o, host);
    } else {
      assert !HasHost(all, host);
    }
  }

  lemma NilListedAppend(to: seq<FsEntry>, o: FsEntry, host: string)
    requires o.host != host
    ensures
      (exists i :: 0 <= i < |to| && to[i].host == host && to[i].config.conf.None?)
      <==> exists i :: 0 <= i < |to + [o]| && (to + [o])[i].host == host && (to + [o])[i].config.conf.None?
  {
    if i :| 0 <= i < |to| && to[i].host == host && to[i].config.conf.None? {
      assert (to + [o])[i] == to[i];
    }
  }

  lemma NilTargetStep(to: seq<FsEntry>, o: FsEntry, later: seq<FsEntry>, host: string)
    ensures NilTarget(ApplyOverride(to, o), later, host) <==> NilTarget(to, [o] + later, host)
  {
    if HasHost(to, o.host) {
      NilTargetOverwriteEach(to, o, later, host);
    } else {
      NilTargetAppend(to, o, later, host);
    }
  }

  /** An override at the head of the list panics if an entry of its host has no map. */
  lemma HeadOverridesNilTarget(to: seq<FsEntry>, o: FsEntry, later: seq<FsEntry>)
    ensures OverridesAt(to, [o] + later, 0) <==> OverridePanics(to, o)
  {
    var all := [o] + later;
    assert all[0] == o && all[..0] == [];
    if OverridePanics(to, o) {
      var i :| 0 <= i < |to| && to[i].host == o.host && OverwritePanics(to[i].config, o.config);
      assert to[i].host == o.host && to[i].config.conf.None?;
    }
  }

  lemma TailOverridesNilTarget(to: seq<FsEntry>, o: FsEntry, later: seq<FsEntry>, j: nat)
    requires j < |later|
    ensures OverridesAt(to, [o] + later, j + 1) <==> OverridesAt(ApplyOverride(to, o), later, j)
  {
    var all := [o] + later;
    assert all[j + 1] == later[j] && all[..j + 1] == [o] + later[..j];
    NilTargetStep(to, o, later[..j], later[j].host);
  }

  lemma OverridesNilTargetStep(to: seq<FsEntry>, o: FsEntry, later: seq<FsEntry>)
    ensures OverridesNilTarget(to, [o] + later)
       <==> OverridePanics(to, o) || OverridesNilTarget(ApplyOverride(to, o), later)
  {
    var all := [o] + later;
    HeadOverridesNilTarget(to, o, later);
    if j: nat :| j < |later| && OverridesAt(ApplyOverride(to, o), later, j) {
      TailOverridesNilTarget(to, o, later, j);
    }
    if j: nat :| 0 < j < |all| && OverridesAt(to, all, j) {
      TailOverridesNilTarget(to, o, later, j - 1);
    }
  }

  lemma {:induction false} FileSystemsPanicExactly(to: seq<FsEntry>, from: seq<FsEntry>)
    ensures FileSystemsPanic(to, from) <==> OverridesNilTarget(to, from)
    decreases |from|
  {
    if from != [] {
      assert from == [from[0]] + from[1..];
      FileSystemsPanicExactly(ApplyOverride(to, from[0]), from[1..]);
      OverridesNilTargetStep(to, from[0], from[1..]);
    }
  }

  lemma {:induction false} FileSystemsConcat(to: seq<FsEntry>, a: seq<FsEntry>, b: seq<FsEntry>)
    ensures OverwriteFileSystems(to, a + b) == OverwriteFileSystems(OverwriteFileSystems(to, a), b)
    ensures FileSystemsPanic(to, a + b) <==> FileSystemsPanic(to, a) || FileSystemsPanic(OverwriteFileSystems(to, a), b)
    decreases |a|
  {
    if a == [] {
      assert a + b == b;
    } else {
      assert (a + b)[1..] == a[1..] + b;
      FileSystemsConcat(ApplyOverride(to, a[0]), a[1..], b);
    }
  }

  lemma NodeDefaultsSetKeysStep(nodes: seq<NodeEntry>, nodeID: string)
    requires nodes != []
    ensures NodeDefaultsSetKeys(nodes, nodeID)
       <==> (Names(nodes[0], nodeID) && Entries(nodes[0].defaults) != map[])
            || NodeDefaultsSetKeys(nodes[1..], nodeID)
  {
    var rest := nodes[1..];
    if NodeDefaultsSetKeys(rest, nodeID) {
      var i :| 0 <= i < |rest| && Names(rest[i], nodeID) && Entries(rest[i].defaults) != map[];
      assert nodes[i + 1] == rest[i];
    }
    if NodeDefaultsSetKeys(nodes, nodeID) {
      var i :| 0 <= i < |nodes| && Names(nodes[i], nodeID) && Entries(nodes[i].defaults) != map[];
      assert i > 0 ==> rest[i - 1] == nodes[i];
    }
  }

  lemma {:induction false} NodesPanicSplits(p: Plugin, nodes: seq<NodeEntry>, nodeID: string)
    ensures NodesPanic(p, nodes, nodeID)
       <==> (p.defaults.conf.None? && NodeDefaultsSetKeys(nodes, nodeID))
            || FileSystemsPanic(p.fileSystems, NodeFileSystems(nodes, nodeID))
    decreases |nodes|
  {
    if nodes != [] {
      NodeDefaultsSetKeysStep(nodes, nodeID);
      NodesPanicSplits(ApplyNode(p, nodes[0], nodeID), nodes[1..], nodeID);
      var later := NodeFileSystems(nodes[1..], nodeID);
      if AppliesTo(nodes[0], nodeID) {
        FileSystemsConcat(p.fileSystems, nodes[0].fileSystems, later);
      } else {
        assert [] + later == later;
      }
    }
  }

  /** Parsing panics on exactly the configuration files that write into a nil map. */
  lemma ParsePanicsExactly(raw: RawConfig, nodeID: string, valid: Plugin -> bool)
    ensures Parse(raw, nodeID, valid).Panicked? <==> WritesToNilMap(raw, nodeID)
  {
    NodesPanicSplits(raw.plugin, raw.nodes, nodeID);
    FileSystemsPanicExactly(raw.plugin.fileSystems, NodeFileSystems(raw.nodes, nodeID));
  }

  /** The shortest such file: no default keys, and one node section that sets one. */
  lemma PanicExample(valid: Plugin -> bool)
    ensures
      var unset := GoConfig(NO_OPTIONS, None);
      var tuned := GoConfig(NO_OPTIONS, Some(map["tuneNumWorkers" := "8"]));
      Parse(RawConfig(Plugin(unset, []), [NodeEntry(["node1"], tuned, [])]), "node1", valid).Panicked?
  {
    var unset := GoConfig(NO_OPTIONS, None);
    var tuned := GoConfig(NO_OPTIONS, Some(map["tuneNumWorkers" := "8"]));
    var nodes := [NodeEntry(["node1"], tuned, [])];
    assert "tuneNumWorkers" in Entries(tuned);
    assert NodePanics(Plugin(unset, []), nodes[0], "node1");
  }

  // ---- Documented precedence ----------------------------------------------------------------------

  /** The order docs/deployment.md gives: node defaults above file system entries. */
  function DocumentedLayers(raw: RawConfig, nodeID: string, host: string): (r: seq<Config>)
  {
    [Value(raw.plugin.defaults)]
    + ConfigsFor(raw.plugin.fileSystems, host)
    + NodeDefaults(raw.nodes, nodeID)
    + ConfigsFor(NodeFileSystems(raw.nodes, nodeID), host)
  }

  /** Both layers define the option, differently, and nothing above decides it. */
  predicate Disputed<T(==)>(n: seq<T>, f: seq<T>, top: seq<T>)
  {
    |n| != 0 && |f| != 0 && n != f && |top| == 0
  }

  predicate DisputedOptions(n: Options, f: Options, top: Options)
  {
    || Disputed(n.grpcPort, f.grpcPort, top.grpcPort)
    || Disputed(n.connInterfaces, f.connInterfaces, top.connInterfaces)
    || Disputed(n.connNetFilter, f.connNetFilter, top.connNetFilter)
    || Disputed(n.connTcpOnlyFilter, f.connTcpOnlyFilter, top.connTcpOnlyFilter)
    || Disputed(n.connRDMAInterfaces, f.connRDMAInterfaces, top.connRDMAInterfaces)
    || Disputed(n.connAuth, f.connAuth, top.connAuth)
    || Disputed(n.tlsCert, f.tlsCert, top.tlsCert)
  }

  predicate DisputedKey(n: Config, f: Config, top: Config, k: string)
  {
    k in n.clientConf && k in f.clientConf && n.clientConf[k] != f.clientConf[k]
    && k !in top.clientConf && k !in NO_EFFECT_KEYS
  }

  predicate DisputedLayers(n: Config, f: Config, top: Config)
  {
    DisputedOptions(n.options, f.options, top.options) || exists k :: k in n.clientConf && DisputedKey(n, f, top, k)
  }

  lemma OptionsSwap(d: Options, n: Options, f: Options, top: Options)
    ensures MergeOptions(MergeOptions(MergeOptions(d, n), f), top)
         == MergeOptions(MergeOptions(MergeOptions(d, f), n), top)
       <==> !DisputedOptions(n, f, top)
  {
  }

  lemma KeysSwap(d: Config, n: Config, f: Config, top: Config)
    ensures (d.clientConf + n.clientConf + f.clientConf + top.clientConf) - NO_EFFECT_KEYS
         == (d.clientConf + f.clientConf + n.clientConf + top.clientConf) - NO_EFFECT_KEYS
       <==> !exists k :: k in n.clientConf && DisputedKey(n, f, top, k)
  {
    var code := (d.clientConf + n.clientConf + f.clientConf + top.clientConf) - NO_EFFECT_KEYS;
    var docs := (d.clientConf + f.clientConf + n.clientConf + top.clientConf) - NO_EFFECT_KEYS;
    assert code.Keys == docs.Keys;
    if k :| k in n.clientConf && DisputedKey(n, f, top, k) {
      assert code[k] == f.clientConf[k] && docs[k] == n.clientConf[k];
    } else {
      forall k | k in code.Keys ensures code[k] == docs[k] {
        if k in n.clientConf && k in f.clientConf && k !in top.clientConf {
          assert !DisputedKey(n, f, top, k);
        }
      }
    }
  }

  lemma LayersSwap(d: Config, n: Config, f: Config, top: Config)
    ensures StripConfig(Merge(Merge(Merge(d, n), f), top)) == StripConfig(Merge(Merge(Merge(d, f), n), top))
       <==> !DisputedLayers(n, f, top)
  {
    OptionsSwap(d.options, n.options, f.options, top.options);
    KeysSwap(d, n, f, top);
  }

  lemma TotalFour(d: Config, a: seq<Config>, b: seq<Config>, c: seq<Config>)
    ensures Total([d] + a + b + c) == Merge(Merge(Merge(d, Total(a)), Total(b)), Total(c))
  {
    TotalSingleton(d);
    TotalConcat([d], a);
    TotalConcat([d] + a, b);
    TotalConcat([d] + a + b, c);
  }

  /** The code and the documentation give a host the same configuration unless a dispute decides otherwise. */
  lemma DocumentedPrecedenceExactly(raw: RawConfig, nodeID: string, valid: Plugin -> bool, host: string)
    requires Parse(raw, nodeID, valid).Parsed?
    ensures Value(Squash(host, Parse(raw, nodeID, valid).plugin))
         == StripConfig(Total(DocumentedLayers(raw, nodeID, host)))
       <==> !DisputedLayers(Total(NodeDefaults(raw.nodes, nodeID)),
                            Total(ConfigsFor(raw.plugin.fileSystems, host)),
                            Total(ConfigsFor(NodeFileSystems(raw.nodes, nodeID), host)))
  {
    EffectiveConfigIsFlatFold(raw, nodeID, valid, host);
    var d, n := Value(raw.plugin.defaults), NodeDefaults(raw.nodes, nodeID);
    var f, top := ConfigsFor(raw.plugin.fileSystems, host), ConfigsFor(NodeFileSystems(raw.nodes, nodeID), host);
    TotalFour(d, n, f, top);
    TotalFour(d, f, n, top);
    LayersSwap(d, Total(n), Total(f), Total(top));
  }

  /** A file in which a node section and a file system section set the same option differently. */
  function DisputedFile(): (raw: RawConfig)
  {
    var unset := GoConfig(NO_OPTIONS, None);
    var node, fs := GoConfig(NO_OPTIONS.(grpcPort := "1"), None), GoConfig(NO_OPTIONS.(grpcPort := "2"), None);
    RawConfig(Plugin(unset, [FsEntry("localhost", fs)]), [NodeEntry(["node1"], node, [])])
  }

  /** If it passes validation, the code and the documentation differ on it. */
  lemma PrecedenceExample(valid: Plugin -> bool)
    requires valid(ApplyNodes(DisputedFile().plugin, DisputedFile().nodes, "node1"))
    ensures
      var raw := DisputedFile();
      && Parse(raw, "node1", valid).Parsed?
      && Value(Squash("localhost", Parse(raw, "node1", valid).plugin))
         != StripConfig(Total(DocumentedLayers(raw, "node1", "localhost")))
  {
    var raw := DisputedFile();
    var node, fs := raw.nodes[0].defaults, raw.plugin.fileSystems[0].config;
    var entries, nodes := raw.plugin.fileSystems, raw.nodes;
    assert Names(nodes[0], "node1") by { assert nodes[0].nodeList[0] == "node1"; }
    assert NodeDefaults(nodes, "node1") == [Value(node)] && NodeFileSystems(nodes, "node1") == [];
    assert entries[..0] == [] && ConfigsFor(entries, "localhost") == [Value(fs)];
    ParsePanicsExactly(raw, "node1", valid);
    DocumentedPrecedenceExactly(raw, "node1", valid, "localhost");
    TotalSingleton(Value(node));
    TotalSingleton(Value(fs));
  }
}
