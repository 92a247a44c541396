/**
 Reconcile, call by call. Before each call of the API server anybody else may act, and each call may fail,
 before or after it has had its effect: the schedule says what happens. Once the schedule is used up
 nothing else happens and every call succeeds.
 */
module Reconciler {
  import opened Wrappers
  import opened Cluster

  datatype Outcome = Ok | Fail(applied: bool)

  datatype Slot = Slot(before: seq<Action>, outcome: Outcome)

  datatype Item = Item(key: Key, body: Body)

  /**
   What the deployment manifests ask for, given the custom resource. defaulted: what the API server stores
   when it is sent the fields of a workload.
   */
  datatype Manifest = Manifest(
    rbac: seq<Item>,
    csiDriver: Body,
    connAuth: Body,
    tlsCerts: Body,
    configMap: DriverSpec -> Body,
    workload: (Key, DriverSpec) -> Body,
    defaulted: Fields -> Fields)

  /** Every field that is set in a is set to the same in b. */
  predicate Derivative(a: Fields, b: Fields)
  {
    forall f :: f in a ==> f in b && b[f] == a[f]
  }

  ghost predicate GoodManifest(m: Manifest)
  {
    && (forall i :: 0 <= i < |m.rbac| ==> m.rbac[i].key.Rbac?)
    && (forall i, j :: 0 <= i < j < |m.rbac| ==> m.rbac[i].key != m.rbac[j].key)
    && (forall a :: Derivative(a, m.defaulted(a)))
  }

  /** The cluster-scoped objects that the manifests make the operator create. */
  predicate InManifest(m: Manifest, k: Key)
  {
    k == CsiDriver || exists i :: 0 <= i < |m.rbac| && m.rbac[i].key == k
  }

  ghost predicate OnlyManifest(m: Manifest, c: Cluster)
  {
    forall k :: Ours(c, k) ==> InManifest(m, k)
  }

  // ---- What the status should say -------------------------------------------------------------------------

  function ControllerNews(sts: Option<Object>, now: int): (x: Condition)
  {
    if sts.None? then Condition(ControllerServiceReady, false, ServiceNotCreated, NotCreated, now)
    else if sts.value.wanted < 1 then Condition(ControllerServiceReady, false, PodsNotScheduled, NoneScheduled, now)
    else if sts.value.ready < 1 then Condition(ControllerServiceReady, false, PodsNotReady, ReadyOf(0, 1), now)
    else Condition(ControllerServiceReady, true, PodsReady, ReadyOf(1, 1), now)
  }

  function NodeNews(ds: Option<Object>, now: int): (x: Condition)
  {
    if ds.None? then Condition(NodeServiceReady, false, ServiceNotCreated, NotCreated, now)
    else if ds.value.wanted < 1 then Condition(NodeServiceReady, false, PodsNotScheduled, NoneScheduled, now)
    else
      var counts := ReadyOf(ds.value.ready, ds.value.wanted);
      if ds.value.ready < ds.value.wanted then Condition(NodeServiceReady, false, PodsNotReady, counts, now)
      else Condition(NodeServiceReady, true, PodsReady, counts, now)
  }

  function NewConditions(conditions: seq<Condition>, sts: Option<Object>, ds: Option<Object>,
      now: int): (r: seq<Condition>)
  {
    SetCondition(SetCondition(conditions, ControllerNews(sts, now)), NodeNews(ds, now))
  }

  function Lookup(c: Cluster, k: Key): (r: Option<Object>)
  {
    if k in c.objects then Some(c.objects[k]) else None
  }

  /** The recorded conditions say what the workloads' pod counts say. */
  predicate StatusCurrent(c: Cluster)
  {
    && c.driver.Some?
    && var conditions := c.driver.value.conditions;
    var a, b := FindCondition(conditions, ControllerServiceReady), FindCondition(conditions, NodeServiceReady);
    && a.Some? && SameNews(a.value, ControllerNews(Lookup(c, StatefulSet), 0))
    && b.Some? && SameNews(b.value, NodeNews(Lookup(c, DaemonSet), 0))
  }

  /** The reason that decides between creating and updating a workload tells whether it was found. */
  lemma NewConditionsSay(conditions: seq<Condition>, sts: Option<Object>, ds: Option<Object>, now: int)
    ensures
      var r := NewConditions(conditions, sts, ds, now);
      var a, b := FindCondition(r, ControllerServiceReady), FindCondition(r, NodeServiceReady);
      && a.Some? && SameNews(a.value, ControllerNews(sts, now)) && (a.value.reason == ServiceNotCreated <==> sts.None?)
      && b.Some? && SameNews(b.value, NodeNews(ds, now)) && (b.value.reason == ServiceNotCreated <==> ds.None?)
  {
    var x, y := ControllerNews(sts, now), NodeNews(ds, now);
    FindAfterSet(conditions, x, ControllerServiceReady);
    FindAfterSet(SetCondition(conditions, x), y, ControllerServiceReady);
    FindAfterSet(SetCondition(conditions, x), y, NodeServiceReady);
  }

  /** The status is written exactly if it is out of date. */
  lemma StatusWrittenExactly(c: Cluster, now: int)
    requires c.driver.Some?
    ensures
      NewConditions(c.driver.value.conditions, Lookup(c, StatefulSet), Lookup(c, DaemonSet), now)
        == c.driver.value.conditions
      <==> StatusCurrent(c)
  {
    var conditions := c.driver.value.conditions;
    var x, y := ControllerNews(Lookup(c, StatefulSet), now), NodeNews(Lookup(c, DaemonSet), now);
    var mid := SetCondition(conditions, x);
    SetChangesNothingExactly(conditions, x);
    SetChangesNothingExactly(mid, y);
    FindAfterSet(conditions, x, ControllerServiceReady);
    FindAfterSet(conditions, x, NodeServiceReady);
    FindAfterSet(mid, y, ControllerServiceReady);
    FindAfterSet(mid, y, NodeServiceReady);
  }

  predicate Says(x: Option<Condition>, ready: bool, reason: Reason, message: Message)
  {
    x.Some? && x.value.ready == ready && x.value.reason == reason && x.value.message == message
  }

  /** The controller service is ready if one pod is wanted and one is ready. */
  predicate ControllerStatusTells(c: Cluster)
    requires c.driver.Some?
  {
    var x := FindCondition(c.driver.value.conditions, ControllerServiceReady);
    && (StatefulSet !in c.objects ==> Says(x, false, ServiceNotCreated, NotCreated))
    && (StatefulSet in c.objects ==>
          var sts := c.objects[StatefulSet];
          && (sts.wanted < 1 ==> Says(x, false, PodsNotScheduled, NoneScheduled))
          && (sts.wanted >= 1 && sts.ready < 1 ==> Says(x, false, PodsNotReady, ReadyOf(0, 1)))
          && (sts.wanted >= 1 && sts.ready >= 1 ==> Says(x, true, PodsReady, ReadyOf(1, 1))))
  }

  /** The node service is ready if pods are wanted and all of them are ready. */
  predicate NodeStatusTells(c: Cluster)
    requires c.driver.Some?
  {
    var x := FindCondition(c.driver.value.conditions, NodeServiceReady);
    && (DaemonSet !in c.objects ==> Says(x, false, ServiceNotCreated, NotCreated))
    && (DaemonSet in c.objects ==>
          var ds := c.objects[DaemonSet];
          && (ds.wanted < 1 ==> Says(x, false, PodsNotScheduled, NoneScheduled))
          && (ds.wanted >= 1 && ds.ready < ds.wanted ==> Says(x, false, PodsNotReady, ReadyOf(ds.ready, ds.wanted)))
          && (ds.wanted >= 1 && ds.ready >= ds.wanted ==> Says(x, true, PodsReady, ReadyOf(ds.ready, ds.wanted))))
  }

  lemma {:induction false} FoundHasType(conditions: seq<Condition>, ctype: ConditionType)
    ensures
      var x := FindCondition(conditions, ctype);
      x.Some? ==> x.value.ctype == ctype
  {
    if conditions != [] && conditions[0].ctype != ctype {
      FoundHasType(conditions[1..], ctype);
    }
  }

  /** A status is current exactly if it tells the pod counts of both workloads. */
  lemma StatusCurrentExactly(c: Cluster)
    requires c.driver.Some?
    ensures StatusCurrent(c) <==> ControllerStatusTells(c) && NodeStatusTells(c)
  {
    FoundHasType(c.driver.value.conditions, ControllerServiceReady);
    FoundHasType(c.driver.value.conditions, NodeServiceReady);
  }

  // ---- What the cluster should hold ---------------------------------------------------------------------------

  /** The workload with the versions of its configuration on the pod template. */
  function WithVersions(body: Body, cm: nat, connAuth: nat, tls: nat): (r: Body)
  {
    var versions := map[
      VersionOf(ConfigMap) := Version(cm),
      VersionOf(ConnAuth) := Version(connAuth),
      VersionOf(TlsCerts) := Version(tls)];
    Body(body.main + versions, body.other)
  }

  function WithCurrentVersions(body: Body, c: Cluster): (r: Body)
    requires ConfigMap in c.objects && ConnAuth in c.objects && TlsCerts in c.objects
  {
    WithVersions(body, c.objects[ConfigMap].version, c.objects[ConnAuth].version, c.objects[TlsCerts].version)
  }

  predicate ConfigMapFits(m: Manifest, spec: DriverSpec, c: Cluster)
  {
    ConfigMap in c.objects && c.objects[ConfigMap].body.main == m.configMap(spec).main
  }

  /** Service accounts are not looked at once they exist. */
  predicate ItemFits(item: Item, c: Cluster)
  {
    && item.key in c.objects
    && (item.key.Rbac? && item.key.kind != ServiceAccount ==> c.objects[item.key].body.main == item.body.main)
  }

  /** What the operator's role lets it update. */
  predicate MayUpdate(k: Key)
  {
    k == ConfigMap || k == StatefulSet || k == DaemonSet || (k.Rbac? && k.kind == ClusterRole)
  }

  /** The object is missing, or as wanted, or one that the operator may bring up to date. */
  predicate CanFit(item: Item, c: Cluster)
  {
    item.key in c.objects ==> ItemFits(item, c) || MayUpdate(item.key)
  }

  /** No role or binding of the manifests is there with other contents. */
  predicate CanConverge(m: Manifest, c: Cluster)
  {
    forall i :: 0 <= i < |m.rbac| ==> CanFit(m.rbac[i], c)
  }

  predicate WorkloadFits(m: Manifest, spec: DriverSpec, k: Key, c: Cluster)
  {
    && ConfigMap in c.objects && ConnAuth in c.objects && TlsCerts in c.objects && k in c.objects
    && Derivative(WithCurrentVersions(m.workload(k, spec), c).main, c.objects[k].body.main)
  }

  /** Everything the custom resource asks for is there. */
  predicate Converged(m: Manifest, c: Cluster)
  {
    && c.driver.Some? && !c.driver.value.deleting && Held(c)
    && ConfigMapFits(m, c.driver.value.spec, c)
    && ConnAuth in c.objects && TlsCerts in c.objects && CsiDriver in c.objects
    && (forall i :: 0 <= i < |m.rbac| ==> ItemFits(m.rbac[i], c))
    && WorkloadFits(m, c.driver.value.spec, StatefulSet, c)
    && WorkloadFits(m, c.driver.value.spec, DaemonSet, c)
  }

  predicate CarriesVersion(c: Cluster, k: Key, v: Key)
  {
    && k in c.objects && v in c.objects
    && VersionOf(v) in c.objects[k].body.main && c.objects[k].body.main[VersionOf(v)] == Version(c.objects[v].version)
  }

  predicate TemplateCurrent(c: Cluster, k: Key)
  {
    CarriesVersion(c, k, ConfigMap) && CarriesVersion(c, k, ConnAuth) && CarriesVersion(c, k, TlsCerts)
  }

  /** One of the annotations that name the versions of the configuration. */
  predicate IsVersion(f: Field)
  {
    f == VersionOf(ConfigMap) || f == VersionOf(ConnAuth) || f == VersionOf(TlsCerts)
  }

  /** The object has each of these fields, with these values, apart from the versions. */
  predicate HasFields(fields: Fields, c: Cluster, k: Key)
  {
    k in c.objects && forall f :: f in fields && !IsVersion(f) ==>
      f in c.objects[k].body.main && c.objects[k].body.main[f] == fields[f]
  }

  lemma FittingWorkloadCarries(m: Manifest, spec: DriverSpec, k: Key, c: Cluster)
    requires WorkloadFits(m, spec, k, c)
    ensures TemplateCurrent(c, k)
    ensures HasFields(m.workload(k, spec).main, c, k)
  {
    var wanted := WithCurrentVersions(m.workload(k, spec), c);
    forall f | f in m.workload(k, spec).main && !IsVersion(f)
      ensures f in c.objects[k].body.main && c.objects[k].body.main[f] == m.workload(k, spec).main[f]
    {
      assert f in wanted.main && wanted.main[f] == m.workload(k, spec).main[f];
    }
    assert VersionOf(ConfigMap) in wanted.main && VersionOf(ConnAuth) in wanted.main
      && VersionOf(TlsCerts) in wanted.main;
  }

  /**
   Both pod templates name the current versions of the Config Map and of both Secrets, and both workloads have
   everything else that the manifests and the custom resource ask for.
   */
  lemma ConvergedCarriesVersions(m: Manifest, c: Cluster)
    requires Converged(m, c)
    ensures TemplateCurrent(c, StatefulSet) && TemplateCurrent(c, DaemonSet)
    ensures HasFields(m.workload(StatefulSet, c.driver.value.spec).main, c, StatefulSet)
    ensures HasFields(m.workload(DaemonSet, c.driver.value.spec).main, c, DaemonSet)
  {
    FittingWorkloadCarries(m, c.driver.value.spec, StatefulSet, c);
    FittingWorkloadCarries(m, c.driver.value.spec, DaemonSet, c);
  }

  // ---- The API server, as the operator sees it ------------------------------------------------------------------

  datatype Fetch<+T> = Found(value: T) | NotFound | Broken

  /** What is stored for an object that is created. */
  function Stored(m: Manifest, k: Key, body: Body): (r: Body)
  {
    if k == StatefulSet || k == DaemonSet then Body(m.defaulted(body.main), body.other) else body
  }

  ghost predicate SameExcept(c: Cluster, c': Cluster, k: Key)
  {
    c'.driver == c.driver && forall u :: u != k ==> Lookup(c', u) == Lookup(c, u)
  }

  /** The object is as the manifests and the custom resource ask for, to the last field. */
  ghost predicate AsAsked(m: Manifest, spec: DriverSpec, c: Cluster, k: Key)
  {
    && k in c.objects
    && var body := c.objects[k].body;
    match k
    case ConfigMap => body == m.configMap(spec)
    case ConnAuth => body == m.connAuth
    case TlsCerts => body == m.tlsCerts
    case CsiDriver => body == m.csiDriver
    case Rbac(_, _) => Item(k, body) in m.rbac
    case _ =>
      && ConfigMap in c.objects && ConnAuth in c.objects && TlsCerts in c.objects
      && body == Stored(m, k, WithCurrentVersions(m.workload(k, spec), c))
  }

  /** Every object that is not as it was before is as asked for. */
  ghost predicate WritesAsAsked(m: Manifest, spec: DriverSpec, c: Cluster, c': Cluster)
  {
    forall k: Key :: Lookup(c', k) == Lookup(c, k) || AsAsked(m, spec, c', k)
  }

  predicate IsWorkload(k: Key)
  {
    k == StatefulSet || k == DaemonSet
  }

  lemma AskedThrough(m: Manifest, spec: DriverSpec, c: Cluster, c1: Cluster, c2: Cluster)
    requires WritesAsAsked(m, spec, c, c1) && WritesAsAsked(m, spec, c1, c2)
    requires forall k: Key :: IsWorkload(k) ==> Lookup(c1, k) == Lookup(c, k)
    ensures WritesAsAsked(m, spec, c, c2)
  {
    forall k: Key ensures Lookup(c2, k) == Lookup(c, k) || AsAsked(m, spec, c2, k) {
      assert Lookup(c1, k) == Lookup(c, k) || AsAsked(m, spec, c1, k);
      assert Lookup(c2, k) == Lookup(c1, k) || AsAsked(m, spec, c2, k);
    }
  }

  class ApiServer {
    const m: Manifest
    var cluster: Cluster
    var schedule: seq<Slot>
    ghost var reached: set<Cluster>  // every state so far
    ghost var written: set<(Cluster, Cluster)>  // before and after each write of the operator
    ghost var errors: nat  // how many calls of the operator were answered with an error

    ghost predicate Valid()
      reads this
    {
      && GoodManifest(m) && WellFormed(cluster) && OnlyManifest(m, cluster)
      && cluster in reached && (forall c :: c in reached ==> FinalizerSafe(c))
      && (forall c, c' :: (c, c') in written ==> c in reached && c' in reached && Respects(c, c'))
    }

    /** Nothing that happened is forgotten. */
    twostate predicate Grew()
      reads this
    {
      old(reached) <= reached && old(written) <= written
    }

    /** One call was answered with an error, or none was. */
    twostate predicate Erred(once: bool)
      reads this
    {
      errors == old(errors) + if once then 1 else 0
    }

    constructor (m: Manifest, schedule: seq<Slot>)
      requires GoodManifest(m)
      ensures Valid() && this.m == m && this.schedule == schedule && reached == {EMPTY} && written == {}
    {
      this.m, this.schedule := m, schedule;
      cluster, reached, written, errors := EMPTY, {EMPTY}, {}, 0;
    }

    /** A write of the operator takes effect. */
    method Write(c: Cluster)
      requires Valid() && WellFormed(c) && OnlyManifest(m, c) && FinalizerSafe(c) && Respects(cluster, c)
      modifies this
      ensures Valid() && cluster == c && schedule == old(schedule) && reached == old(reached) + {c}
      ensures written == old(written) + {(old(cluster), c)} && Erred(false)
    {
      written := written + {(cluster, c)};
      cluster := c;
      reached := reached + {c};
    }

    /** A write of anybody else takes effect. */
    method Record(c: Cluster)
      requires Valid() && WellFormed(c) && OnlyManifest(m, c) && FinalizerSafe(c)
      modifies this
      ensures Valid() && cluster == c && schedule == old(schedule) && reached == old(reached) + {c}
      ensures written == old(written) && Erred(false)
    {
      cluster := c;
      reached := reached + {c};
    }

    /** Everybody else acts, and the call at hand is told how it will end. */
    method Others() returns (o: Outcome)
      requires Valid()
      modifies this
      ensures Valid() && Grew() && Erred(false) && Keeps(old(cluster), cluster)
      ensures old(schedule) == [] ==> o == Ok && schedule == [] && cluster == old(cluster) && reached == old(reached)
      ensures old(schedule) != [] ==>
        && o == old(schedule)[0].outcome && schedule == old(schedule)[1..]
        && cluster == ActAll(old(cluster), old(schedule)[0].before)
    {
      if schedule == [] {
        return Ok;
      }
      var slot := schedule[0];
      schedule := schedule[1..];
      var i := 0;
      while i < |slot.before|
        invariant 0 <= i <= |slot.before|
        invariant Valid() && Grew() && Erred(false) && Keeps(old(cluster), cluster)
        invariant schedule == old(schedule)[1..] && cluster == ActAll(old(cluster), slot.before[..i])
      {
        ActKeeps(cluster, slot.before[i]);
        KeepsThrough(old(cluster), cluster, Act(cluster, slot.before[i]));
        KeepsSafe(cluster, Act(cluster, slot.before[i]));
        assert slot.before[..i + 1][..i] == slot.before[..i];
        Record(Act(cluster, slot.before[i]));
        i := i + 1;
      }
      assert slot.before[..i] == slot.before;
      return slot.outcome;
    }

    method GetDriver() returns (r: Fetch<Driver>)
      requires Valid()
      modifies this
      ensures Erred(r.Broken?)
      ensures Valid() && Grew() && Keeps(old(cluster), cluster)
      ensures r.Found? ==> cluster.driver == Some(r.value)
      ensures old(schedule) == [] ==>
        && schedule == [] && cluster == old(cluster) && reached == old(reached)
        && r == match cluster.driver { case None => NotFound case Some(d) => Found(d) }
    {
      var o := Others();
      if o != Ok {
        errors := errors + 1;
        return Broken;
      }
      match cluster.driver
      case None => return NotFound;
      case Some(d) => return Found(d);
    }

    method GetObject(k: Key) returns (r: Fetch<Object>)
      requires Valid()
      modifies this
      ensures Erred(r.Broken?)
      ensures Valid() && Grew() && Keeps(old(cluster), cluster)
      ensures old(schedule) == [] ==>
        && schedule == [] && cluster == old(cluster) && reached == old(reached)
        && r == match Lookup(cluster, k) { case None => NotFound case Some(x) => Found(x) }
    {
      var o := Others();
      if o != Ok {
        errors := errors + 1;
        return Broken;
      }
      if k in cluster.objects {
        return Found(cluster.objects[k]);
      }
      return NotFound;
    }

    /** An object of the operator is stored, new or in place of an older one. */
    method Store(k: Key, x: Object)
      requires Valid() && (ClusterScoped(k) && x.byOperator ==> Held(cluster) && InManifest(m, k))
      modifies this
      ensures Valid() && cluster == PutObject(old(cluster), k, x) && schedule == old(schedule)
      ensures reached == old(reached) + {cluster} && old(written) <= written && Erred(false)
    {
      var c' := PutObject(cluster, k, x);
      assert forall u :: Ours(c', u) ==> Ours(cluster, u) || u == k;
      Write(c');
    }

    method CreateObject(k: Key, body: Body) returns (r: Fetch<Object>)
      requires Valid() && Held(cluster) && (ClusterScoped(k) ==> InManifest(m, k))
      modifies this
      ensures Erred(r.Broken?)
      ensures Valid() && Grew() && Held(cluster) && !r.NotFound?
      ensures old(schedule) == [] && k !in old(cluster).objects ==>
        && schedule == [] && SameExcept(old(cluster), cluster, k)
        && Lookup(cluster, k).Some? && r == Found(cluster.objects[k]) && r.value.body == Stored(m, k, body)
    {
      var o := Others();
      if k in cluster.objects || o == Fail(false) {
        errors := errors + 1;
        return Broken;
      }
      Store(k, Object(Stored(m, k, body), 0, 0, 0, true));
      if o != Ok {
        errors := errors + 1;
        return Broken;
      }
      return Found(cluster.objects[k]);
    }

    /** Refused unless the operator's own role lets it update such objects. */
    method UpdateObject(k: Key, body: Body) returns (r: Fetch<Object>)
      requires Valid() && Held(cluster) && (ClusterScoped(k) ==> InManifest(m, k))
      modifies this
      ensures Erred(r.Broken?)
      ensures Valid() && Grew() && Held(cluster) && !r.NotFound?
      ensures old(schedule) == [] && !MayUpdate(k) ==>
        schedule == [] && r.Broken? && cluster == old(cluster) && reached == old(reached)
      ensures old(schedule) == [] && k in old(cluster).objects && MayUpdate(k) ==>
        && schedule == [] && SameExcept(old(cluster), cluster, k)
        && Lookup(cluster, k).Some? && r == Found(cluster.objects[k]) && r.value.body == Stored(m, k, body)
    {
      var o := Others();
      if k !in cluster.objects || !MayUpdate(k) || o == Fail(false) {
        errors := errors + 1;
        return Broken;
      }
      Store(k, cluster.objects[k].(body := Stored(m, k, body)));
      if o != Ok {
        errors := errors + 1;
        return Broken;
      }
      return Found(cluster.objects[k]);
    }

    /** Not finding the object is as good as deleting it. */
    method DeleteObject(k: Key) returns (ok: bool)
      requires Valid()
      modifies this
      ensures Erred(!ok)
      ensures Valid() && Grew() && Keeps(old(cluster), cluster)
      ensures ok ==> k !in cluster.objects
      ensures old(schedule) == [] ==>
        && ok && schedule == [] && cluster.driver == old(cluster).driver
        && cluster.objects == old(cluster).objects - {k}
    {
      var o := Others();
      if o == Fail(false) {
        errors := errors + 1;
        return false;
      }
      if k in cluster.objects {
        var c' := DropObject(cluster, k);
        assert Keeps(cluster, c');
        KeepsThrough(old(cluster), cluster, c');
        KeepsSafe(cluster, c');
        Write(c');
      }
      if o != Ok {
        errors := errors + 1;
      }
      return o == Ok;
    }

    /** The status of the custom resource is replaced, if the copy that was read is still current. */
    method UpdateStatus(d: Driver, conditions: seq<Condition>) returns (r: Fetch<Driver>)
      requires Valid() && CopyOf(d, cluster)
      modifies this
      ensures Erred(r.Broken?)
      ensures Valid() && Grew() && Keeps(old(cluster), cluster) && !r.NotFound?
      ensures r.Found? ==>
        cluster.driver == Some(r.value) && r.value == d.(conditions := conditions, version := r.value.version)
      ensures old(schedule) == [] && old(cluster).driver == Some(d) ==>
        && schedule == [] && r.Found? && cluster.objects == old(cluster).objects && reached == old(reached) + {cluster}
    {
      var o := Others();
      if o == Fail(false) || cluster.driver.None? || cluster.driver.value.version != d.version {
        errors := errors + 1;
        return Broken;
      }
      var c' := PutDriver(cluster, d.(conditions := conditions));
      assert Keeps(cluster, c');
      KeepsThrough(old(cluster), cluster, c');
      KeepsSafe(cluster, c');
      Write(c');
      if o != Ok {
        errors := errors + 1;
        return Broken;
      }
      return Found(cluster.driver.value);
    }

    /** The finalizers of the custom resource are replaced, if the copy that was read is still current. */
    method UpdateFinalizers(d: Driver, finalizers: seq<string>) returns (r: Fetch<()>)
      requires Valid() && CopyOf(d, cluster)
      requires FINALIZER in finalizers || forall k :: !Ours(cluster, k)
      requires forall f :: f != FINALIZER ==> (f in finalizers <==> f in d.finalizers)
      modifies this
      ensures Erred(r.Broken?)
      ensures Valid() && Grew() && !r.NotFound?
      ensures r.Found? ==>
        if finalizers == [] && d.deleting then cluster.driver.None?
        else
          && cluster.driver.Some?
          && cluster.driver.value == d.(finalizers := finalizers, version := cluster.driver.value.version)
      ensures old(schedule) == [] && old(cluster).driver == Some(d) ==>
        schedule == [] && r.Found? && cluster.objects == old(cluster).objects
    {
      var o := Others();
      if o == Fail(false) || cluster.driver.None? || cluster.driver.value.version != d.version {
        errors := errors + 1;
        return Broken;
      }
      var c' := PutDriver(cluster, d.(finalizers := finalizers));
      assert forall k :: Ours(c', k) ==> Ours(cluster, k);
      Write(c');
      if o != Ok {
        errors := errors + 1;
        return Broken;
      }
      return Found(());
    }
  }
}
