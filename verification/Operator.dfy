/** The operator's Reconcile: what it never breaks, whatever happens meanwhile, and where it comes to rest. */
module Operator {
  import opened Wrappers
  import opened Cluster
  import opened Reconciler

  // ---- One object at a time ---------------------------------------------------------------------------------

  /** Create the Config Map or bring its data up to date. */
  method EnsureConfigMap(api: ApiServer, spec: DriverSpec) returns (err: bool, version: nat)
    requires api.Valid() && Held(api.cluster)
    modifies api
    ensures api.Valid() && api.Grew() && api.Erred(err) && Held(api.cluster)
    ensures old(api.schedule) == [] ==>
      && api.schedule == [] && !err && SameExcept(old(api.cluster), api.cluster, ConfigMap)
      && ConfigMapFits(api.m, spec, api.cluster) && version == api.cluster.objects[ConfigMap].version
      && WritesAsAsked(api.m, spec, old(api.cluster), api.cluster)
      && (old(ConfigMapFits(api.m, spec, api.cluster)) ==>
            api.cluster == old(api.cluster) && api.reached == old(api.reached))
  {
    version := 0;
    var wanted := api.m.configMap(spec);
    var found := api.GetObject(ConfigMap);
    if found.Broken? {
      return true, 0;
    }
    if found.NotFound? {
      found := api.CreateObject(ConfigMap, wanted);
    } else if found.value.body.main != wanted.main {
      found := api.UpdateObject(ConfigMap, wanted);
    }
    if !found.Found? {
      return true, 0;
    }
    return false, found.value.version;
  }

  /** Create an object that is left alone once it exists. */
  method EnsurePresent(api: ApiServer, k: Key, body: Body) returns (err: bool, version: nat)
    requires api.Valid() && Held(api.cluster) && (ClusterScoped(k) ==> InManifest(api.m, k))
    modifies api
    ensures api.Valid() && api.Grew() && api.Erred(err) && Held(api.cluster)
    ensures old(api.schedule) == [] ==>
      && api.schedule == [] && !err && SameExcept(old(api.cluster), api.cluster, k)
      && k in api.cluster.objects && version == api.cluster.objects[k].version
      && (k !in old(api.cluster).objects ==> api.cluster.objects[k].body == Stored(api.m, k, body))
      && (k in old(api.cluster).objects ==> api.cluster == old(api.cluster) && api.reached == old(api.reached))
  {
    version := 0;
    var found := api.GetObject(k);
    if found.NotFound? {
      found := api.CreateObject(k, body);
    }
    if !found.Found? {
      return true, 0;
    }
    return false, found.value.version;
  }

  method EnsureItem(api: ApiServer, item: Item) returns (err: bool)
    requires api.Valid() && Held(api.cluster) && item.key.Rbac? && InManifest(api.m, item.key)
    modifies api
    ensures api.Valid() && api.Grew() && api.Erred(err) && Held(api.cluster)
    ensures old(api.schedule) == [] ==> api.schedule == [] && (err <==> !old(CanFit(item, api.cluster)))
    ensures old(api.schedule) == [] && err ==> api.cluster == old(api.cluster)
    ensures old(api.schedule) == [] && !err ==>
      && SameExcept(old(api.cluster), api.cluster, item.key)
      && ItemFits(item, api.cluster)
      && (Lookup(api.cluster, item.key) == old(Lookup(api.cluster, item.key))
          || api.cluster.objects[item.key].body == item.body)
      && (old(ItemFits(item, api.cluster)) ==> api.cluster == old(api.cluster) && api.reached == old(api.reached))
  {
    var found := api.GetObject(item.key);
    if found.NotFound? {
      found := api.CreateObject(item.key, item.body);
    } else if found.Found? && item.key.kind != ServiceAccount && found.value.body.main != item.body.main {
      found := api.UpdateObject(item.key, item.body);
    }
    return !found.Found?;
  }

  /** An object of the RBAC manifests that may be created or brought up to date. */
  predicate Adjustable(m: Manifest, c: Cluster, k: Key)
  {
    k.Rbac? && InManifest(m, k) && (k.kind == ServiceAccount ==> k !in c.objects)
  }

  ghost predicate OnlyRbac(m: Manifest, c: Cluster, c': Cluster)
  {
    c'.driver == c.driver && forall k: Key :: !Adjustable(m, c, k) ==> Lookup(c', k) == Lookup(c, k)
  }

  predicate ItemsFit(m: Manifest, c: Cluster, n: nat)
    requires n <= |m.rbac|
  {
    forall i :: 0 <= i < n ==> ItemFits(m.rbac[i], c)
  }

  method EnsureRbac(api: ApiServer) returns (err: bool)
    requires api.Valid() && Held(api.cluster)
    modifies api
    ensures api.Valid() && api.Grew() && api.Erred(err) && Held(api.cluster)
    ensures old(api.schedule) == [] ==>
      && api.schedule == [] && api.cluster.driver == old(api.cluster.driver)
      && (err <==> !old(CanConverge(api.m, api.cluster))) && (err ==> !CanConverge(api.m, api.cluster))
      && RbacAsAsked(api.m, old(api.cluster), api.cluster)
    ensures old(api.schedule) == [] && !err ==>
      && OnlyRbac(api.m, old(api.cluster), api.cluster)
      && ItemsFit(api.m, api.cluster, |api.m.rbac|)
      && (old(ItemsFit(api.m, api.cluster, |api.m.rbac|)) ==>
            api.cluster == old(api.cluster) && api.reached == old(api.reached))
  {
    var i := 0;
    while i < |api.m.rbac|
      invariant 0 <= i <= |api.m.rbac| && api.Valid() && api.Grew() && api.Erred(false) && Held(api.cluster)
      invariant old(api.schedule) == [] ==>
        && api.schedule == [] && OnlyRbac(api.m, old(api.cluster), api.cluster) && ItemsFit(api.m, api.cluster, i)
        && RbacAsAsked(api.m, old(api.cluster), api.cluster)
        && (forall j :: 0 <= j < i ==> old(CanFit(api.m.rbac[j], api.cluster)))
        && (forall j :: i <= j < |api.m.rbac| ==>
              Lookup(api.cluster, api.m.rbac[j].key) == old(Lookup(api.cluster, api.m.rbac[j].key)))
        && (old(ItemsFit(api.m, api.cluster, |api.m.rbac|)) ==>
              api.cluster == old(api.cluster) && api.reached == old(api.reached))
    {
      ghost var before := api.cluster;
      err := EnsureItem(api, api.m.rbac[i]);
      assert old(api.schedule) == [] ==> CanFit(api.m.rbac[i], before) == old(CanFit(api.m.rbac[i], api.cluster));
      if err {
        return;
      }
      if old(api.schedule) == [] {
        RbacStep(api.m, old(api.cluster), before, api.cluster, i);
        RbacStaysAsAsked(api.m, old(api.cluster), before, api.cluster, i);
      }
      i := i + 1;
    }
    return false;
  }

  /** Only objects of the RBAC manifests differ, and those are as the manifests ask for. */
  ghost predicate RbacAsAsked(m: Manifest, c: Cluster, c': Cluster)
  {
    forall k: Key :: Lookup(c', k) == Lookup(c, k) || (k in c'.objects && Item(k, c'.objects[k].body) in m.rbac)
  }

  lemma RbacStaysAsAsked(m: Manifest, c0: Cluster, c: Cluster, c': Cluster, i: nat)
    requires i < |m.rbac| && RbacAsAsked(m, c0, c) && SameExcept(c, c', m.rbac[i].key)
    requires
      var item := m.rbac[i];
      Lookup(c', item.key) == Lookup(c, item.key) || (item.key in c'.objects && c'.objects[item.key].body == item.body)
    ensures RbacAsAsked(m, c0, c')
  {
    assert m.rbac[i] == Item(m.rbac[i].key, m.rbac[i].body);
    forall k: Key ensures Lookup(c', k) == Lookup(c0, k) || (k in c'.objects && Item(k, c'.objects[k].body) in m.rbac) {
      assert Lookup(c, k) == Lookup(c0, k) || Item(k, c.objects[k].body) in m.rbac;
      assert k != m.rbac[i].key ==> Lookup(c', k) == Lookup(c, k);
    }
  }

  lemma RbacStep(m: Manifest, c0: Cluster, c: Cluster, c': Cluster, i: nat)
    requires GoodManifest(m) && i < |m.rbac| && OnlyRbac(m, c0, c) && ItemsFit(m, c, i)
    requires SameExcept(c, c', m.rbac[i].key) && ItemFits(m.rbac[i], c') && (ItemFits(m.rbac[i], c) ==> c' == c)
    ensures OnlyRbac(m, c0, c') && ItemsFit(m, c', i + 1)
    ensures forall j :: i < j < |m.rbac| ==> Lookup(c', m.rbac[j].key) == Lookup(c, m.rbac[j].key)
  {
    forall j | 0 <= j < i ensures ItemFits(m.rbac[j], c') {
      assert m.rbac[j].key != m.rbac[i].key && Lookup(c', m.rbac[j].key) == Lookup(c, m.rbac[j].key);
    }
    forall k: Key | !Adjustable(m, c0, k) ensures Lookup(c', k) == Lookup(c0, k) {
      assert k == m.rbac[i].key ==> ItemFits(m.rbac[i], c);
    }
  }

  /** Create a workload that was not found at first, or update it unless it already has every field that is wanted. */
  method EnsureWorkload(api: ApiServer, k: Key, wanted: Body, found: Option<Object>, notCreated: bool)
    returns (err: bool)
    requires api.Valid() && Held(api.cluster) && (k == StatefulSet || k == DaemonSet) && (notCreated <==> found.None?)
    modifies api
    ensures api.Valid() && api.Grew() && api.Erred(err) && Held(api.cluster)
    ensures old(api.schedule) == [] && found == old(Lookup(api.cluster, k)) ==>
      && api.schedule == [] && !err && SameExcept(old(api.cluster), api.cluster, k)
      && k in api.cluster.objects && Derivative(wanted.main, api.cluster.objects[k].body.main)
      && (Lookup(api.cluster, k) == found || api.cluster.objects[k].body == Stored(api.m, k, wanted))
      && (found.Some? && Derivative(wanted.main, found.value.body.main) ==>
            api.cluster == old(api.cluster) && api.reached == old(api.reached))
  {
    var r: Fetch<Object> := NotFound;
    if notCreated {
      r := api.CreateObject(k, wanted);
    } else if !Derivative(wanted.main, found.value.body.main) {
      r := api.UpdateObject(k, wanted);
    }
    return r.Broken?;
  }

  // ---- Everything that is deployed ----------------------------------------------------------------------------

  predicate IsConfig(k: Key)
  {
    k == ConfigMap || k == ConnAuth || k == TlsCerts
  }

  predicate ConfigFits(m: Manifest, spec: DriverSpec, c: Cluster)
  {
    ConfigMapFits(m, spec, c) && ConnAuth in c.objects && TlsCerts in c.objects
  }

  predicate AccessFits(m: Manifest, c: Cluster)
  {
    ItemsFit(m, c, |m.rbac|) && CsiDriver in c.objects
  }

  lemma PresentAsAsked(m: Manifest, spec: DriverSpec, c: Cluster, c': Cluster, k: Key, body: Body)
    requires SameExcept(c, c', k) && (k in c.objects ==> c' == c)
    requires k !in c.objects ==> k in c'.objects && c'.objects[k].body == body
    requires
      || (k == ConnAuth && body == m.connAuth) || (k == TlsCerts && body == m.tlsCerts)
      || (k == CsiDriver && body == m.csiDriver)
    ensures WritesAsAsked(m, spec, c, c')
  {
  }

  method DeployConfig(api: ApiServer, spec: DriverSpec) returns (err: bool, cm: nat, connAuth: nat, tls: nat)
    requires api.Valid() && Held(api.cluster)
    modifies api
    ensures api.Valid() && api.Grew() && api.Erred(err) && Held(api.cluster)
    ensures old(api.schedule) == [] ==>
      && api.schedule == [] && !err && api.cluster.driver == old(api.cluster.driver)
      && (forall k :: !IsConfig(k) || (k != ConfigMap && k in old(api.cluster).objects) ==>
            Lookup(api.cluster, k) == old(Lookup(api.cluster, k)))
      && ConfigFits(api.m, spec, api.cluster) && cm == api.cluster.objects[ConfigMap].version
      && connAuth == api.cluster.objects[ConnAuth].version && tls == api.cluster.objects[TlsCerts].version
      && WritesAsAsked(api.m, spec, old(api.cluster), api.cluster)
      && (old(ConfigFits(api.m, spec, api.cluster)) ==>
            api.cluster == old(api.cluster) && api.reached == old(api.reached))
  {
    connAuth, tls := 0, 0;
    err, cm := EnsureConfigMap(api, spec);
    if err {
      return;
    }
    ghost var c1 := api.cluster;
    err, connAuth := EnsurePresent(api, ConnAuth, api.m.connAuth);
    if err {
      return;
    }
    ghost var c2 := api.cluster;
    err, tls := EnsurePresent(api, TlsCerts, api.m.tlsCerts);
    if old(api.schedule) == [] {
      assert Lookup(c2, ConfigMap) == Lookup(c1, ConfigMap) && Lookup(api.cluster, ConfigMap) == Lookup(c2, ConfigMap);
      assert Lookup(api.cluster, ConnAuth) == Lookup(c2, ConnAuth);
      PresentAsAsked(api.m, spec, c1, c2, ConnAuth, api.m.connAuth);
      PresentAsAsked(api.m, spec, c2, api.cluster, TlsCerts, api.m.tlsCerts);
      AskedThrough(api.m, spec, old(api.cluster), c1, c2);
      AskedThrough(api.m, spec, old(api.cluster), c2, api.cluster);
    }
  }

  lemma RbacIsAsAsked(m: Manifest, c: Cluster, c': Cluster)
    requires GoodManifest(m) && RbacAsAsked(m, c, c')
    ensures forall spec :: WritesAsAsked(m, spec, c, c')
    ensures forall k: Key :: !k.Rbac? ==> Lookup(c', k) == Lookup(c, k)
  {
    forall k: Key | Lookup(c', k) != Lookup(c, k)
      ensures k.Rbac? && k in c'.objects && Item(k, c'.objects[k].body) in m.rbac
    {
      var i :| 0 <= i < |m.rbac| && m.rbac[i] == Item(k, c'.objects[k].body);
      assert m.rbac[i].key == k;
    }
  }

  method DeployAccess(api: ApiServer) returns (err: bool)
    requires api.Valid() && Held(api.cluster)
    modifies api
    ensures api.Valid() && api.Grew() && api.Erred(err) && Held(api.cluster)
    ensures old(api.schedule) == [] ==>
      && api.schedule == [] && api.cluster.driver == old(api.cluster.driver)
      && (err <==> !old(CanConverge(api.m, api.cluster))) && (err ==> !CanConverge(api.m, api.cluster))
      && (forall spec :: WritesAsAsked(api.m, spec, old(api.cluster), api.cluster))
      && (forall k: Key :: !k.Rbac? && k != CsiDriver ==> Lookup(api.cluster, k) == old(Lookup(api.cluster, k)))
    ensures old(api.schedule) == [] && !err ==>
      && (forall k: Key :: !old(Adjustable(api.m, api.cluster, k) || (k == CsiDriver && k !in api.cluster.objects)) ==>
            Lookup(api.cluster, k) == old(Lookup(api.cluster, k)))
      && AccessFits(api.m, api.cluster)
      && (old(AccessFits(api.m, api.cluster)) ==> api.cluster == old(api.cluster) && api.reached == old(api.reached))
  {
    err := EnsureRbac(api);
    if old(api.schedule) == [] {
      RbacIsAsAsked(api.m, old(api.cluster), api.cluster);
    }
    if err {
      return;
    }
    ghost var c1 := api.cluster;
    var version;
    err, version := EnsurePresent(api, CsiDriver, api.m.csiDriver);
    if old(api.schedule) == [] {
      forall spec ensures WritesAsAsked(api.m, spec, old(api.cluster), api.cluster) {
        PresentAsAsked(api.m, spec, c1, api.cluster, CsiDriver, api.m.csiDriver);
        AskedThrough(api.m, spec, old(api.cluster), c1, api.cluster);
      }
    }
    if old(api.schedule) == [] && !err {
      forall i | 0 <= i < |api.m.rbac| ensures ItemFits(api.m.rbac[i], api.cluster) {
        assert Lookup(api.cluster, api.m.rbac[i].key) == Lookup(c1, api.m.rbac[i].key);
      }
    }
  }

  /**
   Existing service accounts, secrets and CSI driver objects, and everything outside the manifests, stay as they
   are.
   */
  ghost predicate LeavesAlone(m: Manifest, c: Cluster, c': Cluster)
  {
    forall k: Key :: k in c.objects && MustStay(m, c, k) ==> Lookup(c', k) == Lookup(c, k)
  }

  predicate MustStay(m: Manifest, c: Cluster, k: Key)
  {
    k == ConnAuth || k == TlsCerts || k == CsiDriver || (k.Rbac? && !Adjustable(m, c, k))
  }

  predicate WorkloadsFit(m: Manifest, spec: DriverSpec, c: Cluster)
  {
    WorkloadFits(m, spec, StatefulSet, c) && WorkloadFits(m, spec, DaemonSet, c)
  }

  /** The recorded conditions tell which workloads were found. */
  predicate ConditionsTell(conditions: seq<Condition>, sts: Option<Object>, ds: Option<Object>)
  {
    var a, b := FindCondition(conditions, ControllerServiceReady), FindCondition(conditions, NodeServiceReady);
    && a.Some? && (a.value.reason == ServiceNotCreated <==> sts.None?)
    && b.Some? && (b.value.reason == ServiceNotCreated <==> ds.None?)
  }

  method DeployWorkloads(api: ApiServer, d: Driver, sts: Option<Object>, ds: Option<Object>, cm: nat, connAuth: nat,
      tls: nat) returns (err: bool)
    requires api.Valid() && Held(api.cluster)
    requires ConditionsTell(d.conditions, sts, ds)
    modifies api
    ensures api.Valid() && api.Grew() && api.Erred(err) && Held(api.cluster)
    ensures
      old(api.schedule == [] && Reads(api.cluster, sts, ds) && HasVersions(api.cluster, cm, connAuth, tls)) ==>
      && api.schedule == [] && !err && api.cluster.driver == old(api.cluster.driver)
      && (forall k: Key :: k != StatefulSet && k != DaemonSet ==> Lookup(api.cluster, k) == old(Lookup(api.cluster, k)))
      && WorkloadsFit(api.m, d.spec, api.cluster)
      && WritesAsAsked(api.m, d.spec, old(api.cluster), api.cluster)
      && (old(WorkloadsFit(api.m, d.spec, api.cluster)) ==>
            api.cluster == old(api.cluster) && api.reached == old(api.reached))
  {
    var wanted := WithVersions(api.m.workload(StatefulSet, d.spec), cm, connAuth, tls);
    err := EnsureWorkload(api, StatefulSet, wanted, sts,
      FindCondition(d.conditions, ControllerServiceReady).value.reason == ServiceNotCreated);
    if err {
      return;
    }
    ghost var c1 := api.cluster;
    wanted := WithVersions(api.m.workload(DaemonSet, d.spec), cm, connAuth, tls);
    err := EnsureWorkload(api, DaemonSet, wanted, ds,
      FindCondition(d.conditions, NodeServiceReady).value.reason == ServiceNotCreated);
    if old(api.schedule) == [] && old(Reads(api.cluster, sts, ds) && HasVersions(api.cluster, cm, connAuth, tls)) {
      assert Lookup(c1, DaemonSet) == old(Lookup(api.cluster, DaemonSet));
      VersionsStay(old(api.cluster), c1, StatefulSet, cm, connAuth, tls);
      VersionsStay(c1, api.cluster, DaemonSet, cm, connAuth, tls);
      WorkloadsAsAsked(api.m, d.spec, old(api.cluster), c1, api.cluster);
    }
  }

  lemma WorkloadsAsAsked(m: Manifest, spec: DriverSpec, c: Cluster, c1: Cluster, c2: Cluster)
    requires SameExcept(c, c1, StatefulSet) && SameExcept(c1, c2, DaemonSet)
    requires ConfigMap in c2.objects && ConnAuth in c2.objects && TlsCerts in c2.objects
    requires Lookup(c1, StatefulSet) == Lookup(c, StatefulSet) || AsWanted(m, spec, c1, c2, StatefulSet)
    requires Lookup(c2, DaemonSet) == Lookup(c1, DaemonSet) || AsWanted(m, spec, c2, c2, DaemonSet)
    ensures WritesAsAsked(m, spec, c, c2) && Lookup(c2, StatefulSet) == Lookup(c1, StatefulSet)
  {
    assert Lookup(c2, StatefulSet) == Lookup(c1, StatefulSet);
    forall k: Key ensures Lookup(c2, k) == Lookup(c, k) || AsAsked(m, spec, c2, k) {
      assert k != StatefulSet ==> Lookup(c1, k) == Lookup(c, k);
    }
  }

  predicate AsWanted(m: Manifest, spec: DriverSpec, c: Cluster, versions: Cluster, k: Key)
    requires ConfigMap in versions.objects && ConnAuth in versions.objects && TlsCerts in versions.objects
  {
    k in c.objects && c.objects[k].body == Stored(m, k, WithCurrentVersions(m.workload(k, spec), versions))
  }

  predicate Reads(c: Cluster, sts: Option<Object>, ds: Option<Object>)
  {
    sts == Lookup(c, StatefulSet) && ds == Lookup(c, DaemonSet)
  }

  predicate HasVersions(c: Cluster, cm: nat, connAuth: nat, tls: nat)
  {
    && ConfigMap in c.objects && c.objects[ConfigMap].version == cm
    && ConnAuth in c.objects && c.objects[ConnAuth].version == connAuth
    && TlsCerts in c.objects && c.objects[TlsCerts].version == tls
  }

  lemma VersionsStay(c: Cluster, c': Cluster, k: Key, cm: nat, connAuth: nat, tls: nat)
    requires SameExcept(c, c', k) && !IsConfig(k) && HasVersions(c, cm, connAuth, tls)
    ensures HasVersions(c', cm, connAuth, tls)
  {
    assert Lookup(c', ConfigMap) == Lookup(c, ConfigMap);
    assert Lookup(c', ConnAuth) == Lookup(c, ConnAuth);
    assert Lookup(c', TlsCerts) == Lookup(c, TlsCerts);
  }

  predicate AllFit(m: Manifest, spec: DriverSpec, c: Cluster)
  {
    ConfigFits(m, spec, c) && AccessFits(m, c) && WorkloadsFit(m, spec, c)
  }

  lemma FitsStay(m: Manifest, spec: DriverSpec, c: Cluster, c': Cluster)
    requires GoodManifest(m)
    ensures (forall k: Key :: IsConfig(k) ==> Lookup(c', k) == Lookup(c, k)) && ConfigFits(m, spec, c) ==>
      ConfigFits(m, spec, c')
    ensures (forall k: Key :: k.Rbac? || k == CsiDriver ==> Lookup(c', k) == Lookup(c, k)) && AccessFits(m, c) ==>
      AccessFits(m, c')
  {
    if (forall k: Key :: IsConfig(k) ==> Lookup(c', k) == Lookup(c, k)) && ConfigFits(m, spec, c) {
      assert Lookup(c', ConfigMap) == Lookup(c, ConfigMap) && Lookup(c', ConnAuth) == Lookup(c, ConnAuth);
      assert Lookup(c', TlsCerts) == Lookup(c, TlsCerts);
    }
    if (forall k: Key :: k.Rbac? || k == CsiDriver ==> Lookup(c', k) == Lookup(c, k)) && AccessFits(m, c) {
      assert Lookup(c', CsiDriver) == Lookup(c, CsiDriver);
      forall i | 0 <= i < |m.rbac| ensures ItemFits(m.rbac[i], c') {
        assert Lookup(c', m.rbac[i].key) == Lookup(c, m.rbac[i].key);
      }
    }
  }

  lemma AccessLeavesRest(m: Manifest, spec: DriverSpec, c: Cluster, c': Cluster, cm: nat, connAuth: nat, tls: nat)
    requires GoodManifest(m) && ConfigFits(m, spec, c) && HasVersions(c, cm, connAuth, tls)
    requires forall k: Key :: !Adjustable(m, c, k) && (k != CsiDriver || k in c.objects) ==>
      Lookup(c', k) == Lookup(c, k)
    ensures ConfigFits(m, spec, c') && HasVersions(c', cm, connAuth, tls)
    ensures Lookup(c', StatefulSet) == Lookup(c, StatefulSet) && Lookup(c', DaemonSet) == Lookup(c, DaemonSet)
  {
    FitsStay(m, spec, c, c');
    assert Lookup(c', ConfigMap) == Lookup(c, ConfigMap) && Lookup(c', ConnAuth) == Lookup(c, ConnAuth);
    assert Lookup(c', TlsCerts) == Lookup(c, TlsCerts);
  }

  lemma CanConvergeStays(m: Manifest, c: Cluster, c': Cluster)
    requires GoodManifest(m) && forall k: Key :: k.Rbac? ==> Lookup(c', k) == Lookup(c, k)
    ensures CanConverge(m, c') <==> CanConverge(m, c)
  {
    forall i | 0 <= i < |m.rbac| ensures CanFit(m.rbac[i], c') <==> CanFit(m.rbac[i], c) {
      assert Lookup(c', m.rbac[i].key) == Lookup(c, m.rbac[i].key);
    }
  }

  /** Configuration, access rights and the CSI driver object. */
  method DeployBase(api: ApiServer, spec: DriverSpec) returns (err: bool, cm: nat, connAuth: nat, tls: nat)
    requires api.Valid() && Held(api.cluster)
    modifies api
    ensures api.Valid() && api.Grew() && api.Erred(err) && Held(api.cluster)
    ensures old(api.schedule) == [] ==>
      && api.schedule == [] && api.cluster.driver == old(api.cluster.driver)
      && (err <==> !old(CanConverge(api.m, api.cluster))) && (err ==> !CanConverge(api.m, api.cluster))
      && WritesAsAsked(api.m, spec, old(api.cluster), api.cluster)
      && (forall k: Key :: IsWorkload(k) ==> Lookup(api.cluster, k) == old(Lookup(api.cluster, k)))
    ensures old(api.schedule) == [] && !err ==>
      && Reads(api.cluster, old(Lookup(api.cluster, StatefulSet)), old(Lookup(api.cluster, DaemonSet)))
      && ConfigFits(api.m, spec, api.cluster) && AccessFits(api.m, api.cluster)
      && HasVersions(api.cluster, cm, connAuth, tls)
      && LeavesAlone(api.m, old(api.cluster), api.cluster)
      && (old(ConfigFits(api.m, spec, api.cluster) && AccessFits(api.m, api.cluster)) ==>
            api.cluster == old(api.cluster) && api.reached == old(api.reached))
  {
    err, cm, connAuth, tls := DeployConfig(api, spec);
    if err {
      return;
    }
    ghost var c1 := api.cluster;
    if old(api.schedule) == [] {
      CanConvergeStays(api.m, old(api.cluster), c1);
    }
    err := DeployAccess(api);
    if old(api.schedule) == [] {
      AskedThrough(api.m, spec, old(api.cluster), c1, api.cluster);
    }
    if old(api.schedule) == [] && !err {
      AccessLeavesRest(api.m, spec, c1, api.cluster, cm, connAuth, tls);
      LeftAloneThrough(api.m, old(api.cluster), c1, api.cluster);
      assert Lookup(c1, StatefulSet) == old(Lookup(api.cluster, StatefulSet))
        && Lookup(c1, DaemonSet) == old(Lookup(api.cluster, DaemonSet));
    }
  }

  lemma LeftAloneThrough(m: Manifest, c: Cluster, c1: Cluster, c2: Cluster)
    requires forall k: Key :: !IsConfig(k) || (k != ConfigMap && k in c.objects) ==> Lookup(c1, k) == Lookup(c, k)
    requires forall k: Key :: !Adjustable(m, c1, k) && (k != CsiDriver || k in c1.objects) ==>
      Lookup(c2, k) == Lookup(c1, k)
    ensures LeavesAlone(m, c, c2)
  {
    forall k: Key | k in c.objects && MustStay(m, c, k)
      ensures Lookup(c2, k) == Lookup(c, k)
    {
      assert Lookup(c1, k) == Lookup(c, k);
    }
  }

  /** Everything after the finalizer is in place. */
  method Deploy(api: ApiServer, d: Driver, sts: Option<Object>, ds: Option<Object>) returns (err: bool)
    requires api.Valid() && Held(api.cluster)
    requires ConditionsTell(d.conditions, sts, ds)
    modifies api
    ensures api.Valid() && api.Grew() && api.Erred(err) && Held(api.cluster)
    ensures old(api.schedule) == [] && old(Reads(api.cluster, sts, ds)) ==>
      && api.schedule == [] && api.cluster.driver == old(api.cluster.driver)
      && (err <==> !old(CanConverge(api.m, api.cluster))) && (err ==> !CanConverge(api.m, api.cluster))
      && WritesAsAsked(api.m, d.spec, old(api.cluster), api.cluster)
    ensures old(api.schedule) == [] && old(Reads(api.cluster, sts, ds)) && !err ==>
      && AllFit(api.m, d.spec, api.cluster) && LeavesAlone(api.m, old(api.cluster), api.cluster)
      && (old(AllFit(api.m, d.spec, api.cluster)) ==>
            api.cluster == old(api.cluster) && api.reached == old(api.reached))
  {
    var cm, connAuth, tls;
    err, cm, connAuth, tls := DeployBase(api, d.spec);
    if err {
      return;
    }
    ghost var c1 := api.cluster;
    err := DeployWorkloads(api, d, sts, ds, cm, connAuth, tls);
    if old(api.schedule) == [] && old(Reads(api.cluster, sts, ds)) {
      DeployedTogether(api.m, d.spec, old(api.cluster), c1, api.cluster);
    }
  }

  lemma DeployedTogether(m: Manifest, spec: DriverSpec, c: Cluster, c1: Cluster, c2: Cluster)
    requires GoodManifest(m) && ConfigFits(m, spec, c1) && AccessFits(m, c1) && WorkloadsFit(m, spec, c2)
    requires WritesAsAsked(m, spec, c, c1) && WritesAsAsked(m, spec, c1, c2) && LeavesAlone(m, c, c1)
    requires forall k: Key :: IsWorkload(k) ==> Lookup(c1, k) == Lookup(c, k)
    requires forall k: Key :: k != StatefulSet && k != DaemonSet ==> Lookup(c2, k) == Lookup(c1, k)
    ensures AllFit(m, spec, c2) && LeavesAlone(m, c, c2) && WritesAsAsked(m, spec, c, c2)
  {
    AskedThrough(m, spec, c, c1, c2);
    FitsStay(m, spec, c1, c2);
  }

  // ---- Status and finalizer -------------------------------------------------------------------------------------

  lemma CopyStays(d: Driver, c: Cluster, c': Cluster)
    requires CopyOf(d, c) && Keeps(c, c')
    ensures CopyOf(d, c')
  {
  }

  function Optional<T>(r: Fetch<T>): (o: Option<T>)
  {
    if r.Found? then Some(r.value) else None
  }

  /** At most the conditions of the custom resource differ. */
  predicate OnlyStatus(c: Cluster, c': Cluster)
  {
    && c.driver.Some? && c'.driver.Some? && c'.objects == c.objects
    && c'.driver.value == c.driver.value.(conditions := c'.driver.value.conditions, version := c'.driver.value.version)
  }

  method ReadWorkloads(api: ApiServer) returns (err: bool, sts: Option<Object>, ds: Option<Object>)
    requires api.Valid()
    modifies api
    ensures api.Valid() && api.Grew() && api.Erred(err) && Keeps(old(api.cluster), api.cluster)
    ensures old(api.schedule) == [] ==>
      && api.schedule == [] && !err && api.cluster == old(api.cluster) && api.reached == old(api.reached)
      && Reads(api.cluster, sts, ds)
  {
    ds := None;
    var found := api.GetObject(StatefulSet);
    sts := Optional(found);
    if found.Broken? {
      return true, sts, ds;
    }
    ghost var c1 := api.cluster;
    found := api.GetObject(DaemonSet);
    KeepsThrough(old(api.cluster), c1, api.cluster);
    ds := Optional(found);
    return found.Broken?, sts, ds;
  }

  /** The API server is not bothered unless the status has changed. */
  method WriteStatus(api: ApiServer, d: Driver, conditions: seq<Condition>) returns (err: bool, d': Driver)
    requires api.Valid() && CopyOf(d, api.cluster)
    modifies api
    ensures api.Valid() && api.Grew() && api.Erred(err) && Keeps(old(api.cluster), api.cluster)
    ensures !err ==> CopyOf(d', api.cluster) && d' == d.(conditions := conditions, version := d'.version)
    ensures old(api.schedule) == [] && old(api.cluster.driver) == Some(d) ==>
      && api.schedule == [] && !err && api.cluster.driver == Some(d') && api.cluster.objects == old(api.cluster.objects)
      && (if conditions == d.conditions then api.cluster == old(api.cluster) && api.reached == old(api.reached)
          else api.reached == old(api.reached) + {api.cluster})
  {
    if conditions == d.conditions {
      return false, d;
    }
    var r := api.UpdateStatus(d, conditions);
    if !r.Found? {
      return true, d;
    }
    return false, r.value;
  }

  lemma NewStatusIsCurrent(c: Cluster, conditions: seq<Condition>, now: int)
    requires c.driver.Some?
    requires c.driver.value.conditions == NewConditions(conditions, Lookup(c, StatefulSet), Lookup(c, DaemonSet), now)
    ensures StatusCurrent(c)
  {
    NewConditionsSay(conditions, Lookup(c, StatefulSet), Lookup(c, DaemonSet), now);
  }

  /** Bring the conditions of the custom resource up to date. */
  method RefreshStatus(api: ApiServer, d: Driver, now: int)
    returns (err: bool, d': Driver, sts: Option<Object>, ds: Option<Object>)
    requires api.Valid() && api.cluster.driver == Some(d)
    modifies api
    ensures api.Valid() && api.Grew() && api.Erred(err) && Keeps(old(api.cluster), api.cluster)
    ensures !err ==> CopyOf(d', api.cluster) && ConditionsTell(d'.conditions, sts, ds)
    ensures !err ==> d' == d.(conditions := d'.conditions, version := d'.version)
    ensures old(api.schedule) == [] ==>
      && api.schedule == [] && !err && api.cluster.driver == Some(d') && api.cluster.objects == old(api.cluster.objects)
      && Reads(api.cluster, sts, ds) && StatusCurrent(api.cluster) && OnlyStatus(old(api.cluster), api.cluster)
      && (if old(StatusCurrent(api.cluster)) then api.cluster == old(api.cluster) && api.reached == old(api.reached)
          else api.reached == old(api.reached) + {api.cluster})
  {
    d' := d;
    err, sts, ds := ReadWorkloads(api);
    if err {
      return;
    }
    ghost var c1 := api.cluster;
    CopyStays(d, old(api.cluster), c1);
    err, d' := WriteStatus(api, d, NewConditions(d.conditions, sts, ds, now));
    KeepsThrough(old(api.cluster), c1, api.cluster);
    NewConditionsSay(d.conditions, sts, ds, now);
    if old(api.schedule) == [] {
      StatusWrittenExactly(c1, now);
      NewStatusIsCurrent(api.cluster, d.conditions, now);
    }
  }

  /** Of all objects, exactly the cluster-scoped ones of the manifests are gone. */
  ghost predicate OnlyClusterScopedGone(m: Manifest, c: Cluster, c': Cluster)
  {
    forall k :: if ClusterScoped(k) && InManifest(m, k) then k !in c'.objects else Lookup(c', k) == Lookup(c, k)
  }

  /** Delete what garbage collection cannot. */
  method DeleteClusterObjects(api: ApiServer) returns (err: bool)
    requires api.Valid()
    modifies api
    ensures api.Valid() && api.Grew() && api.Erred(err) && Keeps(old(api.cluster), api.cluster)
    ensures !err ==> forall k :: !Ours(api.cluster, k)
    ensures old(api.schedule) == [] ==>
      && api.schedule == [] && !err && api.cluster.driver == old(api.cluster.driver)
      && OnlyClusterScopedGone(api.m, old(api.cluster), api.cluster)
  {
    var i, ok := 0, true;
    while i < |api.m.rbac|
      invariant 0 <= i <= |api.m.rbac| && api.Valid() && api.Grew() && api.Erred(false)
      invariant Keeps(old(api.cluster), api.cluster)
      invariant forall j :: 0 <= j < i ==> !Ours(api.cluster, api.m.rbac[j].key)
      invariant old(api.schedule) == [] ==>
        && api.schedule == [] && api.cluster.driver == old(api.cluster.driver)
        && (forall k :: if Deleted(api.m, k, i) then k !in api.cluster.objects
                        else Lookup(api.cluster, k) == old(Lookup(api.cluster, k)))
    {
      var k := api.m.rbac[i].key;
      if ClusterScoped(k) {
        ghost var before := api.cluster;
        ok := api.DeleteObject(k);
        KeepsThrough(old(api.cluster), before, api.cluster);
        if !ok {
          return true;
        }
      }
      i := i + 1;
    }
    ghost var before := api.cluster;
    ok := api.DeleteObject(CsiDriver);
    KeepsThrough(old(api.cluster), before, api.cluster);
    return !ok;
  }

  /** A cluster-scoped object among the first RBAC manifests. */
  predicate Deleted(m: Manifest, k: Key, n: nat)
    requires n <= |m.rbac|
  {
    ClusterScoped(k) && exists i :: 0 <= i < n && m.rbac[i].key == k
  }

  function Without(finalizers: seq<string>, x: string): (r: seq<string>)
    ensures x !in r && (forall y :: y in r <==> y in finalizers && y != x)
    ensures multiset(r) == multiset(finalizers)[x := 0]
  {
    if finalizers == [] then []
    else
      assert finalizers == [finalizers[0]] + finalizers[1..];
      (if finalizers[0] == x then [] else [finalizers[0]]) + Without(finalizers[1..], x)
  }

  /**
   The operator has let go of a resource that is being deleted: it is gone exactly if nobody else holds it, and
   otherwise as it was, but for the finalizer and the status, and still held by everybody else.
   */
  ghost predicate LetGo(d: Driver, after: Option<Driver>)
  {
    && (after.None? <==> forall f :: f in d.finalizers ==> f == FINALIZER)
    && (after.Some? ==>
          && after.value.spec == d.spec && after.value.deleting
          && multiset(after.value.finalizers) == multiset(d.finalizers)[FINALIZER := 0])
  }

  /** The resource as it was, but for its status, and held by the operator too. */
  ghost predicate TakenHold(d: Driver, after: Option<Driver>)
  {
    && after.Some? && after.value.spec == d.spec && after.value.deleting == d.deleting
    && (if FINALIZER in d.finalizers then after.value.finalizers == d.finalizers
        else multiset(after.value.finalizers) == multiset(d.finalizers) + multiset{FINALIZER})
  }

  /** Let the custom resource go, once nothing of the operator is left that would outlive it. */
  method Finalize(api: ApiServer, d: Driver) returns (err: bool)
    requires api.Valid() && CopyOf(d, api.cluster)
    modifies api
    ensures api.Valid() && api.Grew() && api.Erred(err)
    ensures old(api.schedule) == [] && old(api.cluster.driver) == Some(d) && d.deleting && FINALIZER in d.finalizers ==>
      && api.schedule == [] && !err && !Held(api.cluster) && LetGo(d, api.cluster.driver)
      && OnlyClusterScopedGone(api.m, old(api.cluster), api.cluster)
  {
    err := DeleteClusterObjects(api);
    if err {
      return;
    }
    CopyStays(d, old(api.cluster), api.cluster);
    var others := Without(d.finalizers, FINALIZER);
    assert others == [] <==> forall f :: f in d.finalizers ==> f == FINALIZER by {
      assert others != [] ==> others[0] in d.finalizers && others[0] != FINALIZER;
    }
    var r := api.UpdateFinalizers(d, others);
    return r.Broken?;
  }

  /** From here on the custom resource cannot go away unnoticed. */
  method EnsureFinalizer(api: ApiServer, d: Driver) returns (err: bool)
    requires api.Valid() && CopyOf(d, api.cluster) && !d.deleting
    requires FINALIZER in d.finalizers ==> Held(api.cluster)
    modifies api
    ensures api.Valid() && api.Grew() && api.Erred(err) && (!err ==> Held(api.cluster))
    ensures old(api.schedule) == [] && old(api.cluster.driver) == Some(d) ==>
      && api.schedule == [] && !err && api.cluster.objects == old(api.cluster.objects)
      && TakenHold(d, api.cluster.driver) && api.cluster.driver.value.conditions == d.conditions
      && (FINALIZER in d.finalizers ==> api.cluster == old(api.cluster) && api.reached == old(api.reached))
  {
    if FINALIZER in d.finalizers {
      return false;
    }
    var r := api.UpdateFinalizers(d, d.finalizers + [FINALIZER]);
    return r.Broken?;
  }

  // ---- Reconcile ------------------------------------------------------------------------------------------------

  /**
   What a run comes to for a resource that is not being deleted. It fails exactly if it cannot converge. The
   resource is held, everything that was written is as asked for, and unless it failed all that is asked for is
   there and what must stay has stayed.
   */
  ghost predicate LiveOutcome(m: Manifest, c: Cluster, c': Cluster, err: bool)
    requires c.driver.Some?
  {
    && (err <==> !CanConverge(m, c)) && (err ==> !CanConverge(m, c'))
    && TakenHold(c.driver.value, c'.driver) && WritesAsAsked(m, c.driver.value.spec, c, c')
    && (!err ==> Converged(m, c') && LeavesAlone(m, c, c'))
  }

  /** The status makes no difference to that. */
  lemma LiveAfterStatus(m: Manifest, c: Cluster, c1: Cluster, c2: Cluster, err: bool)
    requires OnlyStatus(c, c1) && LiveOutcome(m, c1, c2, err)
    ensures LiveOutcome(m, c, c2, err) && (Converged(m, c) <==> Converged(m, c1))
  {
    assert forall k :: Lookup(c1, k) == Lookup(c, k);
  }

  /** What is left to do for a custom resource that is not being deleted. */
  method ReconcileLive(api: ApiServer, d: Driver, sts: Option<Object>, ds: Option<Object>) returns (err: bool)
    requires api.Valid() && CopyOf(d, api.cluster) && !d.deleting && ConditionsTell(d.conditions, sts, ds)
    requires FINALIZER in d.finalizers ==> Held(api.cluster)
    modifies api
    ensures api.Valid() && api.Grew() && api.Erred(err)
    ensures old(api.schedule) == [] && old(api.cluster.driver) == Some(d) && old(Reads(api.cluster, sts, ds)) ==>
      && api.schedule == [] && LiveOutcome(api.m, old(api.cluster), api.cluster, err)
      && api.cluster.driver.value.conditions == d.conditions
      && (old(Converged(api.m, api.cluster)) ==> api.cluster == old(api.cluster) && api.reached == old(api.reached))
  {
    err := EnsureFinalizer(api, d);
    if err {
      return;
    }
    ghost var c1 := api.cluster;
    err := Deploy(api, d, sts, ds);
    if old(api.schedule) == [] && old(api.cluster.driver) == Some(d) && old(Reads(api.cluster, sts, ds)) {
      CanConvergeStays(api.m, old(api.cluster), c1);
      assert old(Converged(api.m, api.cluster)) ==> AllFit(api.m, d.spec, c1) && CanConverge(api.m, c1);
    }
  }

  /** What is left to do for a custom resource that is being deleted. */
  method ReconcileDeleting(api: ApiServer, d: Driver) returns (err: bool)
    requires api.Valid() && CopyOf(d, api.cluster) && d.deleting
    modifies api
    ensures api.Valid() && api.Grew() && api.Erred(err)
    ensures old(api.schedule) == [] && old(api.cluster.driver) == Some(d) ==>
      && api.schedule == [] && !err
      && (if FINALIZER in d.finalizers then
            && !Held(api.cluster) && LetGo(d, api.cluster.driver)
            && OnlyClusterScopedGone(api.m, old(api.cluster), api.cluster)
          else api.cluster == old(api.cluster) && api.reached == old(api.reached))
  {
    err := false;
    if FINALIZER in d.finalizers {
      err := Finalize(api, d);
    }
  }

  /** One run. It ends with an error exactly if one of its calls does, whatever everybody else is doing. */
  method Reconcile(api: ApiServer, now: int) returns (err: bool)
    requires api.Valid()
    modifies api
    ensures api.Valid() && api.Grew() && api.Erred(err)
    ensures old(api.schedule) == [] ==> api.schedule == []
    ensures old(api.schedule == [] && api.cluster.driver.None?) ==>
      !err && api.cluster == old(api.cluster) && api.reached == old(api.reached)
    ensures old(api.schedule == [] && api.cluster.driver.Some? && !api.cluster.driver.value.deleting) ==>
      && LiveOutcome(api.m, old(api.cluster), api.cluster, err)
      && StatusCurrent(old(api.cluster).(driver := api.cluster.driver))
    ensures old(api.schedule) == [] && old(Converged(api.m, api.cluster)) ==>
      && StatusCurrent(api.cluster)
      && (if old(StatusCurrent(api.cluster)) then api.cluster == old(api.cluster) && api.reached == old(api.reached)
          else api.reached == old(api.reached) + {api.cluster} && OnlyStatus(old(api.cluster), api.cluster))
    ensures old(api.schedule == [] && api.cluster.driver.Some? && api.cluster.driver.value.deleting) ==>
      && !err
      && (if old(Held(api.cluster)) then
            && !Held(api.cluster) && LetGo(old(api.cluster.driver.value), api.cluster.driver)
            && OnlyClusterScopedGone(api.m, old(api.cluster), api.cluster)
          else OnlyStatus(old(api.cluster), api.cluster))
  {
    var got := api.GetDriver();
    if !got.Found? {
      return got.Broken?;
    }
    var d, sts, ds;
    err, d, sts, ds := RefreshStatus(api, got.value, now);
    if err {
      return;
    }
    if d.deleting {
      err := ReconcileDeleting(api, d);
      return;
    }
    ghost var c1 := api.cluster;
    err := ReconcileLive(api, d, sts, ds);
    if old(api.schedule) == [] {
      LiveAfterStatus(api.m, old(api.cluster), c1, api.cluster, err);
    }
  }

  // ---- Whole runs -----------------------------------------------------------------------------------------------

  /**
   Finalizer safety: from an empty cluster, whatever everybody else does and whichever calls fail, no state on
   the way has a cluster-scoped object of the operator without a custom resource that is held by the finalizer,
   and no write of the operator takes away or adds the finalizer of anybody else.
   */
  method Operate(m: Manifest, schedule: seq<Slot>, times: seq<int>) returns (api: ApiServer)
    requires GoodManifest(m)
    ensures fresh(api) && EMPTY in api.reached && api.cluster in api.reached
    ensures forall c, k :: c in api.reached && Ours(c, k) ==> Held(c)
    ensures forall c, c', f :: (c, c') in api.written && f != FINALIZER ==>
      (HasFinalizer(c', f) <==> HasFinalizer(c, f))
  {
    api := new ApiServer(m, schedule);
    var i := 0;
    while i < |times|
      invariant 0 <= i <= |times| && fresh(api) && api.Valid() && EMPTY in api.reached
    {
      var err := Reconcile(api, times[i]);
      i := i + 1;
    }
  }

  /**
   Quiescence: left alone, from exactly the states that can converge, the first run brings the cluster to what
   the custom resource asks for, the second writes at most the status, and the third writes nothing. From all
   others no run succeeds.
   */
  method Settle(api: ApiServer, times: (int, int, int))
    returns (settled: bool, first: Cluster, second: Cluster, ghost after: set<Cluster>)
    requires api.Valid() && api.schedule == [] && api.cluster.driver.Some? && !api.cluster.driver.value.deleting
    modifies api
    ensures settled <==> old(CanConverge(api.m, api.cluster))
    ensures !settled ==> !CanConverge(api.m, api.cluster)
    ensures settled ==> Converged(api.m, first) && first.driver.value.spec == old(api.cluster.driver.value.spec)
    ensures settled ==> TemplateCurrent(first, StatefulSet) && TemplateCurrent(first, DaemonSet)
    ensures settled ==> LeavesAlone(api.m, old(api.cluster), first)
    ensures settled ==> WritesAsAsked(api.m, old(api.cluster.driver.value.spec), old(api.cluster), first)
    ensures settled ==> TakenHold(old(api.cluster.driver.value), first.driver)
    ensures settled ==> second == first || OnlyStatus(first, second)
    ensures settled ==> StatusCurrent(second) && Converged(api.m, second)
    ensures settled ==> api.cluster == second && api.reached == after
  {
    var e1 := Reconcile(api, times.0);
    first := api.cluster;
    if !e1 {
      ConvergedCarriesVersions(api.m, first);
    }
    var e2 := Reconcile(api, times.1);
    second, after := api.cluster, api.reached;
    var e3 := Reconcile(api, times.2);
    settled := !e1 && !e2 && !e3;
  }

  /**
   A cluster from which no run succeeds, for every manifest with a Role: somebody has created that Role with
   other rules before the custom resource is created.
   */
  method StuckFromTheStart(m: Manifest, i: nat, other: Body, spec: DriverSpec, times: (int, int, int))
    returns (settled: bool)
    requires GoodManifest(m) && i < |m.rbac| && m.rbac[i].key.kind == Role && other.main != m.rbac[i].body.main
    ensures !settled
  {
    var actions := [CreateOther(m.rbac[i].key, other), CreateDriver(spec, [])];
    var api := new ApiServer(m, [Slot(actions, Ok)]);
    var o := api.Others();
    StuckCluster(m, i, other, spec);
    var first, second;
    ghost var after;
    settled, first, second, after := Settle(api, times);
  }

  lemma StuckCluster(m: Manifest, i: nat, other: Body, spec: DriverSpec)
    requires GoodManifest(m) && i < |m.rbac| && m.rbac[i].key.kind == Role && other.main != m.rbac[i].body.main
    ensures
      var c := ActAll(EMPTY, [CreateOther(m.rbac[i].key, other), CreateDriver(spec, [])]);
      c.driver.Some? && !c.driver.value.deleting && !CanConverge(m, c)
  {
    var k := m.rbac[i].key;
    var actions := [CreateOther(k, other), CreateDriver(spec, [])];
    assert actions[..1] == [CreateOther(k, other)] && actions[..1][..0] == [];
    var c1 := Act(EMPTY, CreateOther(k, other));
    assert ActAll(EMPTY, actions[..1]) == c1 && ActAll(EMPTY, actions) == Act(c1, CreateDriver(spec, []));
    assert !CanFit(m.rbac[i], ActAll(EMPTY, actions));
  }
}
