/**
 The configuration code as it runs: structs are copied, the beegfsClientConf maps inside them are not.
 Every method is proved to compute the value-level layering of ConfigLayers, nil-map panics included.
 */
module ConfigHeap {
  import opened Wrappers
  import opened ConfigMerge
  import opened ConfigLayers

  /** A Go map[string]string. A null reference is a nil map. */
  class StringMap {
    var entries: map<string, string>

    constructor ()
      ensures entries == map[]
    {
      entries := map[];
    }
  }

  datatype BeegfsConfig = BeegfsConfig(options: Options, conf: StringMap?)

  datatype FileSystemSpecificConfig = FileSystemSpecificConfig(host: string, config: BeegfsConfig)

  datatype NodeSpecificConfig =
    NodeSpecificConfig(nodeList: seq<string>, defaults: BeegfsConfig, fileSystems: seq<FileSystemSpecificConfig>)

  // ---- What the structs mean in the current heap ---------------------------------------------------

  ghost function MapRefs(c: BeegfsConfig): (r: set<StringMap>)
  {
    if c.conf == null then {} else {c.conf}
  }

  ghost function EntryRefs(entries: seq<FileSystemSpecificConfig>): (r: set<StringMap>)
  {
    set i | 0 <= i < |entries| && entries[i].config.conf != null :: entries[i].config.conf
  }

  ghost function NodeRefs(nodes: seq<NodeSpecificConfig>): (r: set<StringMap>)
  {
    (set i | 0 <= i < |nodes| && nodes[i].defaults.conf != null :: nodes[i].defaults.conf)
    + (set i, j | 0 <= i < |nodes| && 0 <= j < |nodes[i].fileSystems| && nodes[i].fileSystems[j].config.conf != null
         :: nodes[i].fileSystems[j].config.conf)
  }

  function ConfigMeaning(c: BeegfsConfig): (r: GoConfig)
    reads MapRefs(c)
  {
    GoConfig(c.options, if c.conf == null then None else Some(c.conf.entries))
  }

  function EntryMeaning(e: FileSystemSpecificConfig): (r: FsEntry)
    reads MapRefs(e.config)
  {
    FsEntry(e.host, ConfigMeaning(e.config))
  }

  function EntriesMeaning(entries: seq<FileSystemSpecificConfig>): (r: seq<FsEntry>)
    reads EntryRefs(entries)
    ensures |r| == |entries|
    ensures forall i :: 0 <= i < |r| ==> r[i] == EntryMeaning(entries[i])
  {
    seq(|entries|, i requires 0 <= i < |entries| reads EntryRefs(entries) => EntryMeaning(entries[i]))
  }

  function NodeMeaning(n: NodeSpecificConfig): (r: NodeEntry)
    reads MapRefs(n.defaults), EntryRefs(n.fileSystems)
  {
    NodeEntry(n.nodeList, ConfigMeaning(n.defaults), EntriesMeaning(n.fileSystems))
  }

  function NodesMeaning(nodes: seq<NodeSpecificConfig>): (r: seq<NodeEntry>)
    reads NodeRefs(nodes)
    ensures |r| == |nodes|
    ensures forall i :: 0 <= i < |r| ==> r[i] == NodeMeaning(nodes[i])
  {
    seq(|nodes|, i requires 0 <= i < |nodes| reads NodeRefs(nodes) => NodeMeaning(nodes[i]))
  }

  /** No two entries share a map. */
  ghost predicate Unshared(entries: seq<FileSystemSpecificConfig>)
  {
    forall i, j :: 0 <= i < j < |entries| && entries[i].config.conf != null
      ==> entries[i].config.conf != entries[j].config.conf
  }

  /** Unmarshalling allocates every map separately. */
  ghost predicate UnsharedNodes(nodes: seq<NodeSpecificConfig>)
  {
    nodes == [] ||
    (&& Unshared(nodes[0].fileSystems)
     && MapRefs(nodes[0].defaults) !! EntryRefs(nodes[0].fileSystems)
     && MapRefs(nodes[0].defaults) + EntryRefs(nodes[0].fileSystems) !! NodeRefs(nodes[1..])
     && UnsharedNodes(nodes[1..]))
  }

  lemma TailMeaning(nodes: seq<NodeSpecificConfig>)
    requires nodes != []
    ensures NodesMeaning(nodes)[0] == NodeMeaning(nodes[0]) && NodesMeaning(nodes)[1..] == NodesMeaning(nodes[1..])
  {
  }

  twostate lemma SameMapsSameMeaning(nodes: seq<NodeSpecificConfig>)
    requires forall m: StringMap :: m in NodeRefs(nodes) ==> m.entries == old(m.entries)
    ensures NodesMeaning(nodes) == old(NodesMeaning(nodes))
  {
    forall i | 0 <= i < |nodes| ensures NodeMeaning(nodes[i]) == old(NodeMeaning(nodes[i])) {
      var entries := nodes[i].fileSystems;
      forall j | 0 <= j < |entries| ensures EntryMeaning(entries[j]) == old(EntryMeaning(entries[j])) {
      }
      assert EntriesMeaning(entries) == old(EntriesMeaning(entries));
    }
  }

  lemma NodeTailRefs(nodes: seq<NodeSpecificConfig>)
    requires nodes != []
    ensures NodeRefs(nodes) == MapRefs(nodes[0].defaults) + EntryRefs(nodes[0].fileSystems) + NodeRefs(nodes[1..])
  {
    var tail := nodes[1..];
    assert forall k :: 0 <= k < |tail| ==> tail[k] == nodes[k + 1];
    assert forall k :: 0 < k < |nodes| ==> nodes[k] == tail[k - 1];
  }

  // ---- overWriteBeegfsConfig -------------------------------------------------------------------------

  method OverwriteBeegfsConfig(to: BeegfsConfig, from: BeegfsConfig) returns (written: BeegfsConfig, panicked: bool)
    modifies MapRefs(to)
    ensures panicked == old(OverwritePanics(ConfigMeaning(to), ConfigMeaning(from)))
    ensures written.conf == to.conf
    ensures !panicked ==> ConfigMeaning(written) == old(Overwritten(ConfigMeaning(to), ConfigMeaning(from)))
  {
    written := BeegfsConfig(MergeOptions(to.options, from.options), to.conf);
    panicked := false;
    if from.conf != null {
      var source := from.conf.entries;
      var keys := source.Keys;
      ghost var start := if to.conf == null then map[] else to.conf.entries;
      while keys != {}
        invariant keys <= source.Keys
        invariant to.conf == null ==> keys == source.Keys
        invariant to.conf != null ==> to.conf.entries.Keys == start.Keys + (source.Keys - keys)
        invariant to.conf != null ==>
          forall k :: k in to.conf.entries ==>
            to.conf.entries[k] == if k in source && k !in keys then source[k] else start[k]
        decreases keys
      {
        var k :| k in keys;
        if to.conf == null {
          assert k in source;
          panicked := true;
          return;
        }
        to.conf.entries := to.conf.entries[k := source[k]];
        keys := keys - {k};
      }
      assert to.conf != null ==> to.conf.entries == start + source;
      assert to.conf == null ==> source == map[];
    } else {
      assert to.conf != null ==> to.conf.entries + map[] == to.conf.entries;
    }
  }

  // ---- overwriteFileSystemSpecificConfigs --------------------------------------------------------------

  /** The entries as they were, except that one of them may have been overwritten. */
  method OverwriteEntry(entries: seq<FileSystemSpecificConfig>, i: nat, o: FileSystemSpecificConfig)
    returns (result: seq<FileSystemSpecificConfig>, panicked: bool)
    requires i < |entries| && entries[i].host == o.host
    requires Unshared(entries) && MapRefs(o.config) !! EntryRefs(entries)
    modifies MapRefs(entries[i].config)
    ensures panicked == old(OverwritePanics(ConfigMeaning(entries[i].config), ConfigMeaning(o.config)))
    ensures !panicked ==> |result| == |entries| && result[i].config.conf == entries[i].config.conf
    ensures !panicked ==> forall k :: 0 <= k < |result| && k != i ==> result[k] == entries[k]
    ensures !panicked ==> forall k :: 0 <= k < |result| && k != i ==>
      EntryMeaning(result[k]) == old(EntryMeaning(entries[k]))
    ensures !panicked ==> EntryMeaning(result[i]) == old(OverwriteMatching(EntryMeaning(entries[i]), EntryMeaning(o)))
  {
    var written;
    written, panicked := OverwriteBeegfsConfig(entries[i].config, o.config);
    result := entries[i := FileSystemSpecificConfig(entries[i].host, written)];
  }

  /** Same hosts, same maps: overwriting in place never moves an entry or replaces its map. */
  ghost predicate SameMaps(a: seq<FileSystemSpecificConfig>, b: seq<FileSystemSpecificConfig>)
  {
    |a| == |b| && forall k :: 0 <= k < |a| ==> a[k].host == b[k].host && a[k].config.conf == b[k].config.conf
  }

  lemma SameMapsRefs(a: seq<FileSystemSpecificConfig>, b: seq<FileSystemSpecificConfig>)
    requires SameMaps(a, b)
    ensures EntryRefs(a) == EntryRefs(b)
    ensures Unshared(a) ==> Unshared(b)
  {
  }

  /** The inner loop: overwrite every entry of the override's host. */
  method OverwriteHost(entries: seq<FileSystemSpecificConfig>, o: FileSystemSpecificConfig)
    returns (result: seq<FileSystemSpecificConfig>, hadConfig: bool, panicked: bool)
    requires Unshared(entries) && MapRefs(o.config) !! EntryRefs(entries)
    modifies EntryRefs(entries)
    ensures panicked == old(OverridePanics(EntriesMeaning(entries), EntryMeaning(o)))
    ensures !panicked ==> SameMaps(result, entries)
    ensures !panicked ==> hadConfig == HasHost(old(EntriesMeaning(entries)), o.host)
    ensures !panicked ==> EntriesMeaning(result) == old(OverwriteEach(EntriesMeaning(entries), EntryMeaning(o)))
  {
    ghost var before := EntriesMeaning(entries);
    ghost var override := EntryMeaning(o);
    result, hadConfig, panicked := entries, false, false;
    var i := 0;
    while i < |entries|
      invariant 0 <= i <= |entries| && SameMaps(result, entries) && !panicked
      invariant hadConfig == exists k :: 0 <= k < i && before[k].host == o.host
      invariant forall k :: i <= k < |result| ==> EntryMeaning(result[k]) == before[k]
      invariant forall k :: 0 <= k < i ==> EntryMeaning(result[k]) == OverwriteMatching(before[k], override)
      invariant forall k :: 0 <= k < i && before[k].host == o.host ==>
        !OverwritePanics(before[k].config, override.config)
    {
      SameMapsRefs(entries, result);
      if result[i].host == o.host {
        hadConfig := true;
        result, panicked := OverwriteEntry(result, i, o);
        if panicked {
          return;
        }
      }
      i := i + 1;
    }
  }

  lemma AppendUnshared(entries: seq<FileSystemSpecificConfig>, o: FileSystemSpecificConfig)
    requires Unshared(entries) && MapRefs(o.config) !! EntryRefs(entries)
    ensures Unshared(entries + [o])
    ensures EntryRefs(entries + [o]) == EntryRefs(entries) + MapRefs(o.config)
  {
    var all := entries + [o];
    assert all[|entries|] == o;
    assert forall k :: 0 <= k < |entries| ==> all[k] == entries[k];
  }

  /** One override: overwrite the entries of its host, or append it when there is none. */
  method ApplyOneOverride(entries: seq<FileSystemSpecificConfig>, o: FileSystemSpecificConfig)
    returns (result: seq<FileSystemSpecificConfig>, panicked: bool)
    requires Unshared(entries) && MapRefs(o.config) !! EntryRefs(entries)
    modifies EntryRefs(entries)
    ensures panicked == old(OverridePanics(EntriesMeaning(entries), EntryMeaning(o)))
    ensures !panicked ==> Unshared(result) && EntryRefs(result) <= EntryRefs(entries) + MapRefs(o.config)
    ensures !panicked ==> EntriesMeaning(result) == old(ApplyOverride(EntriesMeaning(entries), EntryMeaning(o)))
  {
    ghost var before := EntriesMeaning(entries);
    ghost var override := EntryMeaning(o);
    var hadConfig;
    result, hadConfig, panicked := OverwriteHost(entries, o);
    if !panicked {
      SameMapsRefs(entries, result);
      if !hadConfig {
        assert OverwriteEach(before, override) == before;
        AppendUnshared(result, o);
        result := result + [o];
        assert EntriesMeaning(result) == before + [override];
      }
    }
  }

  lemma TailRefs(entries: seq<FileSystemSpecificConfig>)
    requires entries != [] && Unshared(entries)
    ensures EntryRefs(entries) == MapRefs(entries[0].config) + EntryRefs(entries[1..])
    ensures MapRefs(entries[0].config) !! EntryRefs(entries[1..]) && Unshared(entries[1..])
  {
    var tail := entries[1..];
    assert forall k :: 0 <= k < |tail| ==> tail[k] == entries[k + 1];
    assert forall k :: 0 < k < |entries| ==> entries[k] == tail[k - 1];
  }

  method OverwriteFileSystemSpecificConfigs(writeTo: seq<FileSystemSpecificConfig>,
      writeFrom: seq<FileSystemSpecificConfig>)
    returns (result: seq<FileSystemSpecificConfig>, panicked: bool)
    requires Unshared(writeTo) && Unshared(writeFrom) && EntryRefs(writeTo) !! EntryRefs(writeFrom)
    modifies EntryRefs(writeTo) + EntryRefs(writeFrom)
    ensures panicked == old(FileSystemsPanic(EntriesMeaning(writeTo), EntriesMeaning(writeFrom)))
    ensures !panicked ==> Unshared(result) && EntryRefs(result) <= EntryRefs(writeTo) + EntryRefs(writeFrom)
    ensures !panicked ==>
      EntriesMeaning(result) == old(OverwriteFileSystems(EntriesMeaning(writeTo), EntriesMeaning(writeFrom)))
  {
    ghost var to, from := EntriesMeaning(writeTo), EntriesMeaning(writeFrom);
    result, panicked := writeTo, false;
    var rest := writeFrom;
    while rest != []
      invariant Unshared(result) && Unshared(rest) && EntryRefs(result) !! EntryRefs(rest) && !panicked
      invariant EntryRefs(result) + EntryRefs(rest) <= EntryRefs(writeTo) + EntryRefs(writeFrom)
      invariant OverwriteFileSystems(EntriesMeaning(result), EntriesMeaning(rest)) == OverwriteFileSystems(to, from)
      invariant FileSystemsPanic(EntriesMeaning(result), EntriesMeaning(rest)) == FileSystemsPanic(to, from)
      decreases |rest|
    {
      TailRefs(rest);
      assert EntriesMeaning(rest)[1..] == EntriesMeaning(rest[1..]);
      result, panicked := ApplyOneOverride(result, rest[0]);
      if panicked {
        return;
      }
      rest := rest[1..];
    }
  }

  // ---- stripConfig -------------------------------------------------------------------------------------

  const NO_EFFECT_OPTIONS: seq<string> := ["sysMgmtdHost", "connClientPortUDP", "connClientPort", "connPortShift"]

  method StripMap(m: StringMap)
    modifies m
    ensures m.entries == old(m.entries) - NO_EFFECT_KEYS
  {
    var i := 0;
    ghost var gone: set<string> := {};
    while i < |NO_EFFECT_OPTIONS|
      invariant 0 <= i <= |NO_EFFECT_OPTIONS| == 4
      invariant gone == set k | 0 <= k < i :: NO_EFFECT_OPTIONS[k]
      invariant m.entries == old(m.entries) - gone
    {
      if NO_EFFECT_OPTIONS[i] in m.entries {
        m.entries := m.entries - {NO_EFFECT_OPTIONS[i]};
      }
      gone := gone + {NO_EFFECT_OPTIONS[i]};
      i := i + 1;
    }
    assert gone == {NO_EFFECT_OPTIONS[0], NO_EFFECT_OPTIONS[1], NO_EFFECT_OPTIONS[2], NO_EFFECT_OPTIONS[3]};
  }

  /** The map of every config has lost the no-effect keys, whichever copy of the struct is looked at. */
  twostate predicate Stripped(m: StringMap)
    reads m
  {
    m.entries == old(m.entries) - NO_EFFECT_KEYS
  }

  method StripAll(configs: seq<BeegfsConfig>)
    modifies set i | 0 <= i < |configs| && configs[i].conf != null :: configs[i].conf
    ensures forall i :: 0 <= i < |configs| && configs[i].conf != null ==> Stripped(configs[i].conf)
  {
    var i := 0;
    while i < |configs|
      invariant 0 <= i <= |configs|
      invariant forall k :: 0 <= k < i && configs[k].conf != null ==> Stripped(configs[k].conf)
      invariant forall k :: i <= k < |configs| && configs[k].conf != null ==>
        unchanged(configs[k].conf) || Stripped(configs[k].conf)
    {
      if configs[i].conf != null {
        StripMap(configs[i].conf);
      }
      i := i + 1;
    }
  }

  // ---- The plugin configuration ------------------------------------------------------------------------

  lemma SquashSnoc(acc: GoConfig, entries: seq<FsEntry>, i: nat, host: string)
    requires i < |entries|
    ensures
      var before := SquashEntries(acc, entries[..i], host);
      SquashEntries(acc, entries[..i + 1], host)
      == if entries[i].host == host then Overwritten(before, entries[i].config) else before
  {
    assert entries[..i + 1][..i] == entries[..i];
  }

  class PluginConfig {
    var defaults: BeegfsConfig
    var fileSystems: seq<FileSystemSpecificConfig>

    ghost function Refs(): (r: set<StringMap>)
      reads this
    {
      MapRefs(defaults) + EntryRefs(fileSystems)
    }

    ghost predicate Valid()
      reads this
    {
      Unshared(fileSystems) && MapRefs(defaults) !! EntryRefs(fileSystems)
    }

    function Meaning(): (p: Plugin)
      reads this, Refs()
    {
      Plugin(ConfigMeaning(defaults), EntriesMeaning(fileSystems))
    }

    constructor (defaults: BeegfsConfig, fileSystems: seq<FileSystemSpecificConfig>)
      ensures this.defaults == defaults && this.fileSystems == fileSystems
    {
      this.defaults := defaults;
      this.fileSystems := fileSystems;
    }

    /** The body of the node loop. */
    method ApplyNodeConfig(n: NodeSpecificConfig, nodeID: string) returns (panicked: bool)
      requires Valid() && Unshared(n.fileSystems)
      requires MapRefs(n.defaults) !! EntryRefs(n.fileSystems)
      requires MapRefs(n.defaults) + EntryRefs(n.fileSystems) !! Refs()
      modifies this, Refs(), EntryRefs(n.fileSystems)
      ensures panicked == old(NodePanics(Meaning(), NodeMeaning(n), nodeID))
      ensures !panicked ==> Valid() && Refs() <= old(Refs()) + EntryRefs(n.fileSystems)
      ensures !panicked ==> Meaning() == old(ApplyNode(Meaning(), NodeMeaning(n), nodeID))
    {
      panicked := false;
      var appliesToNode := false;
      var i := 0;
      while i < |n.nodeList| && !appliesToNode
        invariant 0 <= i <= |n.nodeList|
        invariant appliesToNode == (nodeID in n.nodeList[..i])
      {
        appliesToNode := nodeID == n.nodeList[i];
        i := i + 1;
      }
      assert n.nodeList[..|n.nodeList|] == n.nodeList;
      if appliesToNode {
        ghost var entries := EntriesMeaning(fileSystems);
        ghost var overrides := EntriesMeaning(n.fileSystems);
        var written;
        written, panicked := OverwriteBeegfsConfig(defaults, n.defaults);
        if panicked {
          return;
        }
        defaults := written;
        assert EntriesMeaning(fileSystems) == entries && EntriesMeaning(n.fileSystems) == overrides;
        var merged;
        merged, panicked := OverwriteFileSystemSpecificConfigs(fileSystems, n.fileSystems);
        if panicked {
          return;
        }
        fileSystems := merged;
      }
    }

    /** One turn of the node loop, and what it leaves for the next. */
    method ApplyFirst(nodes: seq<NodeSpecificConfig>, nodeID: string) returns (panicked: bool)
      requires nodes != [] && Valid() && UnsharedNodes(nodes) && Refs() !! NodeRefs(nodes)
      modifies this, Refs(), NodeRefs(nodes)
      ensures panicked == old(NodePanics(Meaning(), NodeMeaning(nodes[0]), nodeID))
      ensures !panicked ==> Valid() && Refs() <= old(Refs()) + EntryRefs(nodes[0].fileSystems)
      ensures !panicked ==> Meaning() == old(ApplyNode(Meaning(), NodeMeaning(nodes[0]), nodeID))
      ensures NodesMeaning(nodes[1..]) == old(NodesMeaning(nodes[1..]))
    {
      NodeTailRefs(nodes);
      panicked := ApplyNodeConfig(nodes[0], nodeID);
      SameMapsSameMeaning(nodes[1..]);
    }

    /** The node loop. Appended entries share their maps with the node sections they came from. */
    method ApplyNodeConfigs(nodes: seq<NodeSpecificConfig>, nodeID: string) returns (panicked: bool)
      requires Valid() && UnsharedNodes(nodes) && Refs() !! NodeRefs(nodes)
      modifies this, Refs(), NodeRefs(nodes)
      ensures panicked == old(NodesPanic(Meaning(), NodesMeaning(nodes), nodeID))
      ensures !panicked ==> Valid() && Refs() <= old(Refs() + NodeRefs(nodes))
      ensures !panicked ==> Meaning() == old(ApplyNodes(Meaning(), NodesMeaning(nodes), nodeID))
    {
      panicked := false;
      ghost var start, sections, refs := Meaning(), NodesMeaning(nodes), Refs() + NodeRefs(nodes);
      var rest := nodes;
      while rest != []
        invariant Valid() && UnsharedNodes(rest) && Refs() !! NodeRefs(rest) && !panicked
        invariant Refs() + NodeRefs(rest) <= refs
        invariant ApplyNodes(Meaning(), NodesMeaning(rest), nodeID) == ApplyNodes(start, sections, nodeID)
        invariant NodesPanic(Meaning(), NodesMeaning(rest), nodeID) == NodesPanic(start, sections, nodeID)
        decreases |rest|
      {
        NodeTailRefs(rest);
        TailMeaning(rest);
        panicked := ApplyFirst(rest, nodeID);
        if panicked {
          return;
        }
        rest := rest[1..];
      }
    }

    /** Strips through the maps that copies of the structs share with the structs themselves. */
    method StripConfig()
      modifies Refs()
      ensures defaults == old(defaults) && fileSystems == old(fileSystems)
      ensures Meaning() == old(StripPlugin(Meaning()))
    {
      var configs := [defaults]
        + seq(|fileSystems|, i requires 0 <= i < |fileSystems| reads this => fileSystems[i].config);
      assert forall i :: 0 <= i < |configs| && configs[i].conf != null ==> configs[i].conf in Refs();
      StripAll(configs);
      assert configs[0] == defaults;
      forall i | 0 <= i < |fileSystems|
        ensures EntryMeaning(fileSystems[i])
             == old(FsEntry(fileSystems[i].host, StripGo(ConfigMeaning(fileSystems[i].config))))
      {
        assert configs[i + 1] == fileSystems[i].config;
      }
    }

    /** The configuration for one management host, in a map of its own. */
    method SquashForHost(host: string) returns (squashed: BeegfsConfig)
      ensures squashed.conf != null && fresh(squashed.conf)
      ensures ConfigMeaning(squashed) == Squash(host, Meaning())
    {
      var own := new StringMap();
      squashed := BeegfsConfig(NO_OPTIONS, own);
      var panicked;
      squashed, panicked := OverwriteBeegfsConfig(squashed, defaults);
      ghost var start := Overwritten(NEW_CONFIG, ConfigMeaning(defaults));
      ghost var entries := EntriesMeaning(fileSystems);
      var i := 0;
      while i < |fileSystems|
        invariant 0 <= i <= |fileSystems| && squashed.conf == own
        invariant EntriesMeaning(fileSystems) == entries
        invariant ConfigMeaning(squashed) == SquashEntries(start, entries[..i], host)
      {
        SquashSnoc(start, entries, i, host);
        if host == fileSystems[i].host {
          squashed, panicked := OverwriteBeegfsConfig(squashed, fileSystems[i].config);
        }
        i := i + 1;
      }
      assert entries[..i] == entries;
    }
  }

  // ---- parseConfigFromFile -----------------------------------------------------------------------------

  method ParseConfig(defaults: BeegfsConfig, fileSystems: seq<FileSystemSpecificConfig>, nodes: seq<NodeSpecificConfig>,
                     nodeID: string, valid: Plugin -> bool)
    returns (plugin: PluginConfig, panicked: bool, ok: bool)
    requires Unshared(fileSystems) && MapRefs(defaults) !! EntryRefs(fileSystems)
    requires UnsharedNodes(nodes) && MapRefs(defaults) + EntryRefs(fileSystems) !! NodeRefs(nodes)
    modifies MapRefs(defaults), EntryRefs(fileSystems), NodeRefs(nodes)
    ensures fresh(plugin)
    ensures
      var raw := old(RawConfig(Plugin(ConfigMeaning(defaults), EntriesMeaning(fileSystems)), NodesMeaning(nodes)));
      match Parse(raw, nodeID, valid)
      case Panicked => panicked
      case Invalid => !panicked && !ok
      case Parsed(p) => !panicked && ok && plugin.Meaning() == p
  {
    ghost var raw := RawConfig(Plugin(ConfigMeaning(defaults), EntriesMeaning(fileSystems)), NodesMeaning(nodes));
    plugin := new PluginConfig(defaults, fileSystems);
    ok := false;
    assert plugin.Meaning() == raw.plugin && NodesMeaning(nodes) == raw.nodes;
    panicked := plugin.ApplyNodeConfigs(nodes, nodeID);
    if !panicked {
      ok := valid(plugin.Meaning());
      if ok {
        plugin.StripConfig();
      }
    }
  }
}
