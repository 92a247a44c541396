/**
 Layering of a configuration file: what the node loop, the in-place overwrites, the stripping and the
 squash per management host compute, on values.

 A Go map may be nil, and writing to a nil map panics, so a configuration here records whether its
 beegfsClientConf map exists.
 */
module ConfigLayers {
  import opened Wrappers
  import opened ConfigMerge

  datatype GoConfig = GoConfig(options: Options, conf: Option<map<string, string>>)

  datatype FsEntry = FsEntry(host: string, config: GoConfig)

  datatype NodeEntry = NodeEntry(nodeList: seq<string>, defaults: GoConfig, fileSystems: seq<FsEntry>)

  datatype Plugin = Plugin(defaults: GoConfig, fileSystems: seq<FsEntry>)

  datatype RawConfig = RawConfig(plugin: Plugin, nodes: seq<NodeEntry>)

  datatype ParseResult = Panicked | Invalid | Parsed(plugin: Plugin)

  function Entries(c: GoConfig): (m: map<string, string>)
  {
    if c.conf.Some? then c.conf.value else map[]
  }

  /** What a configuration means, whether or not its map was ever allocated. */
  function Value(c: GoConfig): (r: Config)
  {
    Config(c.options, Entries(c))
  }

  // ---- Overwriting one configuration ------------------------------------------------------------

  predicate OverwritePanics(to: GoConfig, from: GoConfig)
  {
    to.conf.None? && Entries(from) != map[]
  }

  /** The target after the overwrite; a nil map stays nil, because nothing is written to it. */
  function Overwritten(to: GoConfig, from: GoConfig): (r: GoConfig)
    ensures r.conf.Some? == to.conf.Some?
  {
    GoConfig(MergeOptions(to.options, from.options),
             if to.conf.Some? then Some(to.conf.value + Entries(from)) else None)
  }

  lemma OverwrittenValue(to: GoConfig, from: GoConfig)
    requires !OverwritePanics(to, from)
    ensures Value(Overwritten(to, from)) == Merge(Value(to), Value(from))
  {
    assert to.conf.None? ==> map[] + Entries(from) == map[];
  }

  // ---- Overwriting a list of file system entries --------------------------------------------------

  predicate HasHost(entries: seq<FsEntry>, host: string)
  {
    exists i :: 0 <= i < |entries| && entries[i].host == host
  }

  function OverwriteMatching(e: FsEntry, o: FsEntry): (r: FsEntry)
    ensures r.host == e.host && r.config.conf.Some? == e.config.conf.Some?
  {
    if e.host == o.host then FsEntry(e.host, Overwritten(e.config, o.config)) else e
  }

  function OverwriteEach(to: seq<FsEntry>, o: FsEntry): (r: seq<FsEntry>)
    ensures |r| == |to|
    ensures forall i :: 0 <= i < |to| ==> r[i] == OverwriteMatching(to[i], o)
  {
    seq(|to|, i requires 0 <= i < |to| => OverwriteMatching(to[i], o))
  }

  /** One override: overwrite every entry of its host in place, or append it when there is none. */
  function ApplyOverride(to: seq<FsEntry>, o: FsEntry): (r: seq<FsEntry>)
  {
    if HasHost(to, o.host) then OverwriteEach(to, o) else to + [o]
  }

  predicate OverridePanics(to: seq<FsEntry>, o: FsEntry)
  {
    exists i :: 0 <= i < |to| && to[i].host == o.host && OverwritePanics(to[i].config, o.config)
  }

  function OverwriteFileSystems(to: seq<FsEntry>, from: seq<FsEntry>): (r: seq<FsEntry>)
    decreases |from|
  {
    if from == [] then to else OverwriteFileSystems(ApplyOverride(to, from[0]), from[1..])
  }

  predicate FileSystemsPanic(to: seq<FsEntry>, from: seq<FsEntry>)
    decreases |from|
  {
    from != [] && (OverridePanics(to, from[0]) || FileSystemsPanic(ApplyOverride(to, from[0]), from[1..]))
  }

  // ---- The node loop ------------------------------------------------------------------------------

  predicate AppliesTo(n: NodeEntry, nodeID: string)
  {
    nodeID in n.nodeList
  }

  function ApplyNode(p: Plugin, n: NodeEntry, nodeID: string): (r: Plugin)
  {
    if AppliesTo(n, nodeID) then
      Plugin(Overwritten(p.defaults, n.defaults), OverwriteFileSystems(p.fileSystems, n.fileSystems))
    else p
  }

  predicate NodePanics(p: Plugin, n: NodeEntry, nodeID: string)
  {
    AppliesTo(n, nodeID)
    && (OverwritePanics(p.defaults, n.defaults) || FileSystemsPanic(p.fileSystems, n.fileSystems))
  }

  function ApplyNodes(p: Plugin, nodes: seq<NodeEntry>, nodeID: string): (r: Plugin)
    decreases |nodes|
  {
    if nodes == [] then p else ApplyNodes(ApplyNode(p, nodes[0], nodeID), nodes[1..], nodeID)
  }

  predicate NodesPanic(p: Plugin, nodes: seq<NodeEntry>, nodeID: string)
    decreases |nodes|
  {
    nodes != [] && (NodePanics(p, nodes[0], nodeID) || NodesPanic(ApplyNode(p, nodes[0], nodeID), nodes[1..], nodeID))
  }

  // ---- Stripping, parsing, squashing ----------------------------------------------------------------

  function StripGo(c: GoConfig): (r: GoConfig)
    ensures Value(r) == StripConfig(Value(c))
  {
    var none: map<string, string> := map[];
    assert none - NO_EFFECT_KEYS == none;
    if c.conf.Some? then c.(conf := Some(c.conf.value - NO_EFFECT_KEYS)) else c
  }

  function StripEntries(entries: seq<FsEntry>): (r: seq<FsEntry>)
    ensures |r| == |entries|
    ensures forall i :: 0 <= i < |r| ==> r[i] == FsEntry(entries[i].host, StripGo(entries[i].config))
  {
    seq(|entries|, i requires 0 <= i < |entries| => FsEntry(entries[i].host, StripGo(entries[i].config)))
  }

  function StripPlugin(p: Plugin): (r: Plugin)
  {
    Plugin(StripGo(p.defaults), StripEntries(p.fileSystems))
  }

  /** The whole parse. The checks on hosts, ports and filters are the parameter `valid`. */
  function Parse(raw: RawConfig, nodeID: string, valid: Plugin -> bool): (r: ParseResult)
  {
    if NodesPanic(raw.plugin, raw.nodes, nodeID) then Panicked
    else
      var p := ApplyNodes(raw.plugin, raw.nodes, nodeID);
      if valid(p) then Parsed(StripPlugin(p)) else Invalid
  }

  const NEW_CONFIG := GoConfig(NO_OPTIONS, Some(map[]))

  function SquashEntries(acc: GoConfig, entries: seq<FsEntry>, host: string): (r: GoConfig)
    ensures r.conf.Some? == acc.conf.Some?
    decreases |entries|
  {
    if entries == [] then acc
    else
      var last := entries[|entries| - 1];
      var below := SquashEntries(acc, entries[..|entries| - 1], host);
      if last.host == host then Overwritten(below, last.config) else below
  }

  function Squash(host: string, p: Plugin): (r: GoConfig)
    ensures r.conf.Some?
  {
    SquashEntries(Overwritten(NEW_CONFIG, p.defaults), p.fileSystems, host)
  }

  // ---- The flat fold --------------------------------------------------------------------------------

  /** The configurations listed for a host, in order. */
  function ConfigsFor(entries: seq<FsEntry>, host: string): (r: seq<Config>)
  {
    if entries == [] then []
    else
      var last := entries[|entries| - 1];
      ConfigsFor(entries[..|entries| - 1], host) + (if last.host == host then [Value(last.config)] else [])
  }

  /** The section lists this node, somewhere. */
  predicate Names(n: NodeEntry, nodeID: string)
  {
    exists j :: 0 <= j < |n.nodeList| && n.nodeList[j] == nodeID
  }

  /** The defaults of the node sections that name this node, in file order. */
  function NodeDefaults(nodes: seq<NodeEntry>, nodeID: string): (r: seq<Config>)
  {
    if nodes == [] then []
    else (if Names(nodes[0], nodeID) then [Value(nodes[0].defaults)] else []) + NodeDefaults(nodes[1..], nodeID)
  }

  /** The file system entries of the node sections that name this node, in file order. */
  function NodeFileSystems(nodes: seq<NodeEntry>, nodeID: string): (r: seq<FsEntry>)
  {
    if nodes == [] then []
    else (if Names(nodes[0], nodeID) then nodes[0].fileSystems else []) + NodeFileSystems(nodes[1..], nodeID)
  }

  /** All layers that matter to one host on one node, lowest precedence first. */
  function Layers(raw: RawConfig, nodeID: string, host: string): (r: seq<Config>)
  {
    [Value(raw.plugin.defaults)]
    + NodeDefaults(raw.nodes, nodeID)
    + ConfigsFor(raw.plugin.fileSystems, host)
    + ConfigsFor(NodeFileSystems(raw.nodes, nodeID), host)
  }

  lemma {:induction false} ConfigsForConcat(a: seq<FsEntry>, b: seq<FsEntry>, host: string)
    ensures ConfigsFor(a + b, host) == ConfigsFor(a, host) + ConfigsFor(b, host)
  {
    if b == [] {
      assert a + b == a;
    } else {
      assert (a + b)[..|a + b| - 1] == a + b[..|b| - 1];
      ConfigsForConcat(a, b[..|b| - 1], host);
    }
  }

  lemma {:induction false} ConfigsForNoHost(entries: seq<FsEntry>, host: string)
    requires !HasHost(entries, host)
    ensures ConfigsFor(entries, host) == []
  {
    if entries != [] {
      var init := entries[..|entries| - 1];
      forall i | 0 <= i < |init| ensures init[i].host != host {
        assert entries[i].host != host;
      }
      ConfigsForNoHost(init, host);
    }
  }

  /** The overwritten entries of the override's own host, merged: the override shows once, at the end. */
  lemma {:induction false} TotalOverwriteEach(to: seq<FsEntry>, o: FsEntry)
    requires !OverridePanics(to, o)
    ensures HasHost(to, o.host) ==>
      Total(ConfigsFor(OverwriteEach(to, o), o.host)) == Merge(Total(ConfigsFor(to, o.host)), Value(o.config))
    ensures !HasHost(to, o.host) ==> ConfigsFor(OverwriteEach(to, o), o.host) == [] == ConfigsFor(to, o.host)
  {
    if to == [] {
      return;
    }
    var init, last := to[..|to| - 1], to[|to| - 1];
    var g := Value(o.config);
    assert OverwriteEach(to, o)[..|to| - 1] == OverwriteEach(init, o);
    TotalOverwriteEach(init, o);
    if last.host != o.host {
      assert HasHost(to, o.host) ==> HasHost(init, o.host);
      assert ConfigsFor(to, o.host) == ConfigsFor(init, o.host);
      assert ConfigsFor(OverwriteEach(to, o), o.host) == ConfigsFor(OverwriteEach(init, o), o.host);
      return;
    }
    var y := Value(last.config);
    var below := ConfigsFor(init, o.host);
    OverwrittenValue(last.config, o.config);
    TotalSnoc(ConfigsFor(OverwriteEach(init, o), o.host), Merge(y, g));
    TotalSnoc(below, y);
    if HasHost(init, o.host) {
      LastWriterShowsOnce(Total(below), y, g);
    } else {
      MergeAssociative(Total(below), y, g);
    }
  }

  lemma LastWriterShowsOnce(t: Config, y: Config, g: Config)
    ensures Merge(Merge(t, g), Merge(y, g)) == Merge(Merge(t, y), g)
  {
    MergeAssociative(t, g, Merge(y, g));
    MergeAssociative(g, y, g);
    MergeAbsorbs(g, y);
    MergeAssociative(t, y, g);
  }

  lemma {:induction false} OverwriteEachOtherHost(to: seq<FsEntry>, o: FsEntry, host: string)
    requires o.host != host
    ensures ConfigsFor(OverwriteEach(to, o), host) == ConfigsFor(to, host)
  {
    if to != [] {
      assert OverwriteEach(to, o)[..|to| - 1] == OverwriteEach(to[..|to| - 1], o);
      OverwriteEachOtherHost(to[..|to| - 1], o, host);
    }
  }

  lemma TotalApplyOverride(to: seq<FsEntry>, o: FsEntry, host: string)
    requires !OverridePanics(to, o)
    ensures Total(ConfigsFor(ApplyOverride(to, o), host)) == Total(ConfigsFor(to, host) + ConfigsFor([o], host))
  {
    var listed := ConfigsFor(to, host);
    assert ConfigsFor([o], host) == if o.host == host then [Value(o.config)] else [] by {
      assert [o][..0] == [];
    }
    if o.host == host {
      TotalSnoc(listed, Value(o.config));
    } else {
      assert listed + [] == listed;
    }
    if HasHost(to, o.host) {
      if o.host == host { TotalOverwriteEach(to, o); } else { OverwriteEachOtherHost(to, o, host); }
    } else {
      ConfigsForConcat(to, [o], host);
    }
  }

  lemma {:induction false} TotalOverwriteFileSystems(to: seq<FsEntry>, from: seq<FsEntry>, host: string)
    requires !FileSystemsPanic(to, from)
    ensures Total(ConfigsFor(OverwriteFileSystems(to, from), host))
         == Total(ConfigsFor(to, host) + ConfigsFor(from, host))
    decreases |from|
  {
    if from == [] {
      assert ConfigsFor(to, host) + [] == ConfigsFor(to, host);
    } else {
      var next := ApplyOverride(to, from[0]);
      TotalOverwriteFileSystems(next, from[1..], host);
      TotalApplyOverride(to, from[0], host);
      assert from == [from[0]] + from[1..];
      ConfigsForConcat([from[0]], from[1..], host);
      var a, b, c := ConfigsFor(to, host), ConfigsFor([from[0]], host), ConfigsFor(from[1..], host);
      TotalRegroup(ConfigsFor(next, host), a, b, c);
    }
  }

  /** The defaults and the file system entries are folded independently by the node loop. */
  lemma {:induction false} NodeLoopDefaults(p: Plugin, nodes: seq<NodeEntry>, nodeID: string)
    requires !NodesPanic(p, nodes, nodeID)
    ensures Value(ApplyNodes(p, nodes, nodeID).defaults) == Total([Value(p.defaults)] + NodeDefaults(nodes, nodeID))
    decreases |nodes|
  {
    var d := Value(p.defaults);
    if nodes == [] {
      TotalSingleton(d);
      assert [d] + [] == [d];
      return;
    }
    var n, later := nodes[0], NodeDefaults(nodes[1..], nodeID);
    NodeLoopDefaults(ApplyNode(p, n, nodeID), nodes[1..], nodeID);
    if AppliesTo(n, nodeID) {
      var m := Value(n.defaults);
      OverwrittenValue(p.defaults, n.defaults);
      TotalSingleton(d);
      TotalSingleton(Merge(d, m));
      TotalSnoc([d], m);
      TotalRegroup([Merge(d, m)], [d], [m], later);
    } else {
      assert [] + later == later;
    }
  }

  lemma NodeStepFileSystems(p: Plugin, n: NodeEntry, nodeID: string, later: seq<FsEntry>, host: string)
    requires !NodePanics(p, n, nodeID)
    ensures
      var own := if Names(n, nodeID) then n.fileSystems else [];
      Total(ConfigsFor(ApplyNode(p, n, nodeID).fileSystems, host) + ConfigsFor(later, host))
      == Total(ConfigsFor(p.fileSystems, host) + ConfigsFor(own + later, host))
  {
    if AppliesTo(n, nodeID) {
      TotalOverwriteFileSystems(p.fileSystems, n.fileSystems, host);
      ConfigsForConcat(n.fileSystems, later, host);
      TotalRegroup(ConfigsFor(ApplyNode(p, n, nodeID).fileSystems, host),
        ConfigsFor(p.fileSystems, host), ConfigsFor(n.fileSystems, host), ConfigsFor(later, host));
    } else {
      assert [] + later == later;
    }
  }

  lemma {:induction false} NodeLoopFileSystems(p: Plugin, nodes: seq<NodeEntry>, nodeID: string, host: string)
    requires !NodesPanic(p, nodes, nodeID)
    ensures Total(ConfigsFor(ApplyNodes(p, nodes, nodeID).fileSystems, host))
         == Total(ConfigsFor(p.fileSystems, host) + ConfigsFor(NodeFileSystems(nodes, nodeID), host))
    decreases |nodes|
  {
    if nodes == [] {
      assert ConfigsFor(p.fileSystems, host) + [] == ConfigsFor(p.fileSystems, host);
    } else {
      NodeLoopFileSystems(ApplyNode(p, nodes[0], nodeID), nodes[1..], nodeID, host);
      NodeStepFileSystems(p, nodes[0], nodeID, NodeFileSystems(nodes[1..], nodeID), host);
    }
  }

  lemma {:induction false} SquashEntriesValue(acc: GoConfig, entries: seq<FsEntry>, host: string)
    requires acc.conf.Some?
    ensures Value(SquashEntries(acc, entries, host)) == Merge(Value(acc), Total(ConfigsFor(entries, host)))
  {
    if entries == [] {
      MergeIdentity(Value(acc));
    } else {
      var init, last := entries[..|entries| - 1], entries[|entries| - 1];
      SquashEntriesValue(acc, init, host);
      var listed := ConfigsFor(init, host);
      if last.host == host {
        OverwrittenValue(SquashEntries(acc, init, host), last.config);
        TotalSnoc(listed, Value(last.config));
        MergeAssociative(Value(acc), Total(listed), Value(last.config));
      } else {
        assert listed + [] == listed;
      }
    }
  }

  /** The squash for a host is the default merged with everything listed for that host. */
  lemma SquashValue(host: string, p: Plugin)
    ensures Value(Squash(host, p)) == Merge(Value(p.defaults), Total(ConfigsFor(p.fileSystems, host)))
  {
    OverwrittenValue(NEW_CONFIG, p.defaults);
    MergeIdentity(Value(p.defaults));
    SquashEntriesValue(Overwritten(NEW_CONFIG, p.defaults), p.fileSystems, host);
  }

  lemma {:induction false} StripEntriesConfigs(entries: seq<FsEntry>, host: string)
    ensures ConfigsFor(StripEntries(entries), host) == StripLayers(ConfigsFor(entries, host))
  {
    if entries != [] {
      assert StripEntries(entries)[..|entries| - 1] == StripEntries(entries[..|entries| - 1]);
      StripEntriesConfigs(entries[..|entries| - 1], host);
    }
  }

  lemma SquashStripped(host: string, p: Plugin)
    ensures Value(Squash(host, StripPlugin(p)))
         == StripConfig(Merge(Value(p.defaults), Total(ConfigsFor(p.fileSystems, host))))
  {
    SquashValue(host, StripPlugin(p));
    StripEntriesConfigs(p.fileSystems, host);
    StripTotal(ConfigsFor(p.fileSystems, host));
    StripMerge(Value(p.defaults), Total(ConfigsFor(p.fileSystems, host)));
  }

  /** The effective configuration of every host is the stripped right-biased fold of its layers. */
  lemma EffectiveConfigIsFlatFold(raw: RawConfig, nodeID: string, valid: Plugin -> bool, host: string)
    requires Parse(raw, nodeID, valid).Parsed?
    ensures Value(Squash(host, Parse(raw, nodeID, valid).plugin)) == StripConfig(Total(Layers(raw, nodeID, host)))
  {
    SquashStripped(host, ApplyNodes(raw.plugin, raw.nodes, nodeID));
    NodeLoopDefaults(raw.plugin, raw.nodes, nodeID);
    NodeLoopFileSystems(raw.plugin, raw.nodes, nodeID, host);
    LayersInTwo(raw, nodeID, host);
  }

  /**
   Read off the layers directly: an option is that of the last layer that defines it, and so is every key of
   beegfs-client.conf except the four that the driver decides itself, which are never there.
   */
  lemma EffectiveValues(raw: RawConfig, nodeID: string, valid: Plugin -> bool, host: string, k: string)
    requires Parse(raw, nodeID, valid).Parsed?
    ensures
      var c, layers := Value(Squash(host, Parse(raw, nodeID, valid).plugin)), Layers(raw, nodeID, host);
      && IsLastDefined(layers, (o: Options) => o.connInterfaces, c.options.connInterfaces)
      && IsLastDefined(layers, (o: Options) => o.connNetFilter, c.options.connNetFilter)
      && IsLastDefined(layers, (o: Options) => o.connTcpOnlyFilter, c.options.connTcpOnlyFilter)
      && IsLastDefined(layers, (o: Options) => o.connRDMAInterfaces, c.options.connRDMAInterfaces)
      && IsLastDefined(layers, (o: Options) => o.grpcPort, c.options.grpcPort)
      && (if k == "sysMgmtdHost" || k == "connClientPortUDP" || k == "connClientPort" || k == "connPortShift" then
            k !in c.clientConf
          else if k in c.clientConf then exists i :: LastWithKey(layers, k, i, c.clientConf[k])
          else forall i :: 0 <= i < |layers| ==> k !in layers[i].clientConf)
  {
    EffectiveConfigIsFlatFold(raw, nodeID, valid, host);
    OptionsAreLastDefined(Layers(raw, nodeID, host));
    KeysAreLastDefined(Layers(raw, nodeID, host), k);
  }

  lemma LayersInTwo(raw: RawConfig, nodeID: string, host: string)
    ensures
      Total(Layers(raw, nodeID, host))
      == Merge(Total([Value(raw.plugin.defaults)] + NodeDefaults(raw.nodes, nodeID)),
               Total(ConfigsFor(raw.plugin.fileSystems, host) + ConfigsFor(NodeFileSystems(raw.nodes, nodeID), host)))
  {
    var d, nd := [Value(raw.plugin.defaults)], NodeDefaults(raw.nodes, nodeID);
    var f, nf := ConfigsFor(raw.plugin.fileSystems, host), ConfigsFor(NodeFileSystems(raw.nodes, nodeID), host);
    assert Layers(raw, nodeID, host) == (d + nd) + (f + nf);
    TotalConcat(d + nd, f + nf);
  }

  // ---- Which node sections count ------------------------------------------------------------------------------

  /** The two files differ at most in how their sections list other nodes, and this node in what order and how often. */
  predicate SameForNode(a: seq<NodeEntry>, b: seq<NodeEntry>, nodeID: string)
  {
    && |a| == |b|
    && forall i :: 0 <= i < |a| ==>
      && a[i].defaults == b[i].defaults && a[i].fileSystems == b[i].fileSystems
      && (nodeID in a[i].nodeList <==> nodeID in b[i].nodeList)
  }

  lemma {:induction false} SameForNodeLoop(p: Plugin, a: seq<NodeEntry>, b: seq<NodeEntry>, nodeID: string)
    requires SameForNode(a, b, nodeID)
    ensures ApplyNodes(p, a, nodeID) == ApplyNodes(p, b, nodeID) && NodesPanic(p, a, nodeID) == NodesPanic(p, b, nodeID)
    decreases |a|
  {
    if a != [] {
      SameForNodeLoop(ApplyNode(p, a[0], nodeID), a[1..], b[1..], nodeID);
    }
  }

  /** Such files are parsed alike: neither the order of a node list nor repetitions nor other nodes in it matter. */
  lemma NodeListsAreSets(p: Plugin, a: seq<NodeEntry>, b: seq<NodeEntry>, nodeID: string, valid: Plugin -> bool)
    requires SameForNode(a, b, nodeID)
    ensures Parse(RawConfig(p, a), nodeID, valid) == Parse(RawConfig(p, b), nodeID, valid)
  {
    SameForNodeLoop(p, a, b, nodeID);
  }

  /** The sections that list this node, as if they listed nobody else. */
  function OwnSections(nodes: seq<NodeEntry>, nodeID: string): (r: seq<NodeEntry>)
  {
    if nodes == [] then []
    else
      (if Names(nodes[0], nodeID) then [NodeEntry([nodeID], nodes[0].defaults, nodes[0].fileSystems)] else [])
      + OwnSections(nodes[1..], nodeID)
  }

  lemma {:induction false} OwnSectionsLoop(p: Plugin, nodes: seq<NodeEntry>, nodeID: string)
    ensures
      var own := OwnSections(nodes, nodeID);
      && ApplyNodes(p, own, nodeID) == ApplyNodes(p, nodes, nodeID)
      && NodesPanic(p, own, nodeID) == NodesPanic(p, nodes, nodeID)
    decreases |nodes|
  {
    if nodes != [] {
      var n, later := nodes[0], OwnSections(nodes[1..], nodeID);
      OwnSectionsLoop(ApplyNode(p, n, nodeID), nodes[1..], nodeID);
      if Names(n, nodeID) {
        var own := NodeEntry([nodeID], n.defaults, n.fileSystems);
        assert own.nodeList[0] == nodeID && OwnSections(nodes, nodeID) == [own] + later;
        assert ApplyNode(p, own, nodeID) == ApplyNode(p, n, nodeID);
      } else {
        assert OwnSections(nodes, nodeID) == later;
      }
    }
  }

  /** A node's configuration is parsed as if its file had the sections that list the node, for that node alone. */
  lemma OnlyOwnSectionsCount(raw: RawConfig, nodeID: string, valid: Plugin -> bool)
    ensures Parse(RawConfig(raw.plugin, OwnSections(raw.nodes, nodeID)), nodeID, valid) == Parse(raw, nodeID, valid)
  {
    OwnSectionsLoop(raw.plugin, raw.nodes, nodeID);
  }

  /** An override changes the entries of its host and no other, and adds an entry only if there was none. */
  lemma OverrideTouchesOnlyItsHost(to: seq<FsEntry>, o: FsEntry)
    ensures
      var r := ApplyOverride(to, o);
      && (forall i :: 0 <= i < |to| ==> r[i].host == to[i].host && (to[i].host != o.host ==> r[i] == to[i]))
      && (if exists i :: 0 <= i < |to| && to[i].host == o.host then |r| == |to| else r == to + [o])
  {
  }
}
