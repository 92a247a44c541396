/**
 Effective BeeGFS configurations and the right-biased merge that layers them.

 A configuration holds seven options, each of which counts as absent when it is empty, and a set of
 beegfs-client.conf keys. Layering one configuration over another keeps whatever the upper layer does
 not define.
 */
module ConfigMerge {

  /** Everything in a BeegfsConfig except its beegfsClientConf map. */
  datatype Options = Options(
    grpcPort: string,
    connInterfaces: seq<string>,
    connNetFilter: seq<string>,
    connTcpOnlyFilter: seq<string>,
    connRDMAInterfaces: seq<string>,
    connAuth: string,
    tlsCert: string)

  datatype Config = Config(options: Options, clientConf: map<string, string>)

  const NO_OPTIONS := Options("", [], [], [], [], "", "")

  const EMPTY_CONFIG := Config(NO_OPTIONS, map[])

  /** The upper value when it is defined, that is, not empty. */
  function Upper<T>(lower: seq<T>, upper: seq<T>): (r: seq<T>)
  {
    if |upper| != 0 then upper else lower
  }

  function MergeOptions(x: Options, y: Options): (r: Options)
  {
    Options(
      Upper(x.grpcPort, y.grpcPort),
      Upper(x.connInterfaces, y.connInterfaces),
      Upper(x.connNetFilter, y.connNetFilter),
      Upper(x.connTcpOnlyFilter, y.connTcpOnlyFilter),
      Upper(x.connRDMAInterfaces, y.connRDMAInterfaces),
      Upper(x.connAuth, y.connAuth),
      Upper(x.tlsCert, y.tlsCert))
  }

  function Merge(x: Config, y: Config): (r: Config)
  {
    Config(MergeOptions(x.options, y.options), x.clientConf + y.clientConf)
  }

  lemma MergeIdentity(x: Config)
    ensures Merge(EMPTY_CONFIG, x) == x == Merge(x, EMPTY_CONFIG)
  {
    assert map[] + x.clientConf == x.clientConf == x.clientConf + map[];
  }

  lemma MergeAssociative(x: Config, y: Config, z: Config)
    ensures Merge(Merge(x, y), z) == Merge(x, Merge(y, z))
  {
    assert (x.clientConf + y.clientConf) + z.clientConf == x.clientConf + (y.clientConf + z.clientConf);
  }

  /** Applying an override, then something else, then the same override again: the first time does not show. */
  lemma MergeAbsorbs(g: Config, y: Config)
    ensures Merge(Merge(g, y), g) == Merge(y, g)
  {
    assert (g.clientConf + y.clientConf) + g.clientConf == y.clientConf + g.clientConf;
  }

  /** The layers merged in order, the last one winning. */
  function Total(layers: seq<Config>): (r: Config)
  {
    if layers == [] then EMPTY_CONFIG
    else Merge(Total(layers[..|layers| - 1]), layers[|layers| - 1])
  }

  lemma TotalSnoc(layers: seq<Config>, top: Config)
    ensures Total(layers + [top]) == Merge(Total(layers), top)
  {
    assert (layers + [top])[..|layers|] == layers;
  }

  lemma {:induction false} TotalConcat(a: seq<Config>, b: seq<Config>)
    ensures Total(a + b) == Merge(Total(a), Total(b))
  {
    if b == [] {
      assert a + b == a;
      MergeIdentity(Total(a));
    } else {
      var init, top := b[..|b| - 1], b[|b| - 1];
      assert a + b == (a + init) + [top];
      TotalSnoc(a + init, top);
      TotalConcat(a, init);
      MergeAssociative(Total(a), Total(init), top);
    }
  }

  lemma TotalSingleton(x: Config)
    ensures Total([x]) == x
  {
    assert [x][..0] == [];
    MergeIdentity(x);
  }

  lemma TotalRegroup(x: seq<Config>, a: seq<Config>, b: seq<Config>, above: seq<Config>)
    requires Total(x) == Total(a + b)
    ensures Total(x + above) == Total(a + (b + above))
  {
    assert a + (b + above) == (a + b) + above;
    TotalConcat(x, above);
    TotalConcat(a + b, above);
  }

  /** This value of an option is that of the last layer that defines it, or empty if none does. */
  ghost predicate IsLastDefined<T(!new)>(layers: seq<Config>, get: Options -> seq<T>, value: seq<T>)
  {
    || (value == [] && forall i :: 0 <= i < |layers| ==> get(layers[i].options) == [])
    || exists i :: 0 <= i < |layers| && value == get(layers[i].options) != []
                   && forall j :: i < j < |layers| ==> get(layers[j].options) == []
  }

  lemma LastDefinedSnoc<T(!new)>(layers: seq<Config>, get: Options -> seq<T>, value: seq<T>, top: Config)
    requires IsLastDefined(layers, get, value)
    ensures IsLastDefined(layers + [top], get, if get(top.options) != [] then get(top.options) else value)
  {
    var all := layers + [top];
    assert all[|layers|] == top && forall i :: 0 <= i < |layers| ==> all[i] == layers[i];
    if get(top.options) == [] && value != [] {
      var i :| 0 <= i < |layers| && value == get(layers[i].options)
        && forall j :: i < j < |layers| ==> get(layers[j].options) == [];
      assert value == get(all[i].options);
    }
  }

  lemma {:induction false} OptionIsLastDefined<T(!new)>(layers: seq<Config>, get: Options -> seq<T>)
    requires get(NO_OPTIONS) == []
    requires forall x, y :: get(MergeOptions(x, y)) == if get(y) != [] then get(y) else get(x)
    ensures IsLastDefined(layers, get, get(Total(layers).options))
  {
    if layers != [] {
      var init, top := layers[..|layers| - 1], layers[|layers| - 1];
      OptionIsLastDefined(init, get);
      LastDefinedSnoc(init, get, get(Total(init).options), top);
      assert layers == init + [top];
    }
  }

  /** Each option is that of the last layer that defines it. */
  lemma OptionsAreLastDefined(layers: seq<Config>)
    ensures IsLastDefined(layers, (o: Options) => o.grpcPort, Total(layers).options.grpcPort)
    ensures IsLastDefined(layers, (o: Options) => o.connInterfaces, Total(layers).options.connInterfaces)
    ensures IsLastDefined(layers, (o: Options) => o.connNetFilter, Total(layers).options.connNetFilter)
    ensures IsLastDefined(layers, (o: Options) => o.connTcpOnlyFilter, Total(layers).options.connTcpOnlyFilter)
    ensures IsLastDefined(layers, (o: Options) => o.connRDMAInterfaces, Total(layers).options.connRDMAInterfaces)
    ensures IsLastDefined(layers, (o: Options) => o.connAuth, Total(layers).options.connAuth)
    ensures IsLastDefined(layers, (o: Options) => o.tlsCert, Total(layers).options.tlsCert)
  {
    OptionIsLastDefined(layers, (o: Options) => o.grpcPort);
    OptionIsLastDefined(layers, (o: Options) => o.connInterfaces);
    OptionIsLastDefined(layers, (o: Options) => o.connNetFilter);
    OptionIsLastDefined(layers, (o: Options) => o.connTcpOnlyFilter);
    OptionIsLastDefined(layers, (o: Options) => o.connRDMAInterfaces);
    OptionIsLastDefined(layers, (o: Options) => o.connAuth);
    OptionIsLastDefined(layers, (o: Options) => o.tlsCert);
  }

  predicate LastWithKey(layers: seq<Config>, k: string, i: int, value: string)
  {
    && 0 <= i < |layers| && k in layers[i].clientConf && layers[i].clientConf[k] == value
    && forall j :: i < j < |layers| ==> k !in layers[j].clientConf
  }

  /** Each beegfs-client.conf key is there exactly if some layer sets it, with the value of the last that does. */
  lemma {:induction false} KeysAreLastDefined(layers: seq<Config>, k: string)
    ensures
      if k in Total(layers).clientConf then exists i :: LastWithKey(layers, k, i, Total(layers).clientConf[k])
      else forall i :: 0 <= i < |layers| ==> k !in layers[i].clientConf
  {
    if layers != [] {
      var n := |layers| - 1;
      var init, top := layers[..n], layers[n];
      KeysAreLastDefined(init, k);
      assert forall i :: 0 <= i < n ==> init[i] == layers[i];
      if k in top.clientConf {
        assert LastWithKey(layers, k, n, Total(layers).clientConf[k]);
      } else if k in Total(layers).clientConf {
        var i :| LastWithKey(init, k, i, Total(init).clientConf[k]);
        assert LastWithKey(layers, k, i, Total(layers).clientConf[k]);
      }
    }
  }

  // ---- Options that have no effect ------------------------------------------------------------

  /** beegfs-client.conf keys the driver decides itself; a configuration file may not set them. */
  const NO_EFFECT_KEYS: set<string> := {"sysMgmtdHost", "connClientPortUDP", "connClientPort", "connPortShift"}

  function StripConfig(c: Config): (r: Config)
    ensures r.clientConf.Keys !! NO_EFFECT_KEYS
  {
    c.(clientConf := c.clientConf - NO_EFFECT_KEYS)
  }

  lemma StripMerge(x: Config, y: Config)
    ensures StripConfig(Merge(x, y)) == Merge(StripConfig(x), StripConfig(y))
  {
    assert (x.clientConf + y.clientConf) - NO_EFFECT_KEYS
        == (x.clientConf - NO_EFFECT_KEYS) + (y.clientConf - NO_EFFECT_KEYS);
  }

  function StripLayers(layers: seq<Config>): (r: seq<Config>)
    ensures |r| == |layers|
    ensures forall i :: 0 <= i < |r| ==> r[i] == StripConfig(layers[i])
  {
    seq(|layers|, i requires 0 <= i < |layers| => StripConfig(layers[i]))
  }

  lemma {:induction false} StripTotal(layers: seq<Config>)
    ensures Total(StripLayers(layers)) == StripConfig(Total(layers))
  {
    if layers == [] {
      assert StripConfig(EMPTY_CONFIG).clientConf == map[];
    } else {
      var init, top := layers[..|layers| - 1], layers[|layers| - 1];
      assert StripLayers(layers)[..|layers| - 1] == StripLayers(init);
      StripTotal(init);
      StripMerge(Total(init), top);
    }
  }
}
