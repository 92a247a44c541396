/**
 The part of the Kubernetes API server that the operator works on: its custom resource, the objects it
 deploys, and what everybody else may do to them between two of its calls.

 Every successful write gives the object it touches a version that was never used before. An update of the
 custom resource is refused unless it carries the current version.
 */
module Cluster {
  import opened Wrappers

  const FINALIZER := "beegfs.csi.netapp.com/clusterResourceDeletion"

  type DriverSpec = string

  datatype ConditionType = ControllerServiceReady | NodeServiceReady | OtherType(name: string)

  datatype Reason = ServiceNotCreated | PodsNotScheduled | PodsNotReady | PodsReady | OtherReason(name: string)

  datatype Message = NotCreated | NoneScheduled | ReadyOf(ready: int, wanted: int) | OtherMessage(text: string)

  datatype Condition = Condition(ctype: ConditionType, ready: bool, reason: Reason, message: Message, since: int)

  /** The BeegfsDriver custom resource. */
  datatype Driver = Driver(
    spec: DriverSpec, conditions: seq<Condition>, finalizers: seq<string>, deleting: bool, version: nat)

  datatype RbacKind = ServiceAccount | ClusterRole | ClusterRoleBinding | Role | RoleBinding

  datatype Key = ConfigMap | ConnAuth | TlsCerts | StatefulSet | DaemonSet | CsiDriver
      | Rbac(kind: RbacKind, name: string)

  /** Objects that no namespaced owner can take along when it is garbage collected. */
  predicate ClusterScoped(k: Key)
  {
    k == CsiDriver || (k.Rbac? && (k.kind == ClusterRole || k.kind == ClusterRoleBinding))
  }

  /** A field of an object: one of the version annotations on a pod template, or any other, by its path. */
  datatype Field = VersionOf(of: Key) | Path(path: string)

  datatype Value = Text(text: string) | Version(version: nat)

  /** The fields that are set. */
  type Fields = map<Field, Value>

  /** main: the fields that the operator compares (data, rules, subjects and role, spec). other: the rest. */
  datatype Body = Body(main: Fields, other: Fields)

  /** wanted, ready: the pod counts in the status of a workload. */
  datatype Object = Object(body: Body, version: nat, wanted: int, ready: int, byOperator: bool)

  /** next: the next version to be handed out. */
  datatype Cluster = Cluster(driver: Option<Driver>, objects: map<Key, Object>, next: nat)

  const EMPTY := Cluster(None, map[], 0)

  /** A cluster-scoped object made by the operator exists. */
  predicate Ours(c: Cluster, k: Key)
  {
    ClusterScoped(k) && k in c.objects && c.objects[k].byOperator
  }

  /** The custom resource exists and cannot go away before the operator lets it. */
  predicate Held(c: Cluster)
  {
    c.driver.Some? && FINALIZER in c.driver.value.finalizers
  }

  /** No cluster-scoped object of the operator outlives the resource that makes the operator delete it. */
  ghost predicate FinalizerSafe(c: Cluster)
  {
    (exists k :: Ours(c, k)) ==> Held(c)
  }

  predicate WellFormed(c: Cluster)
  {
    c.driver.Some? ==> c.driver.value.version < c.next && (c.driver.value.deleting ==> c.driver.value.finalizers != [])
  }

  ghost predicate HasFinalizer(c: Cluster, f: string)
  {
    c.driver.Some? && f in c.driver.value.finalizers
  }

  /**
   What a write of the operator may do to the custom resource: it leaves the finalizers of everybody else and
   what was asked for alone, makes none, and lets one go only while it is being deleted.
   */
  ghost predicate Respects(c: Cluster, c': Cluster)
  {
    && (forall f :: f != FINALIZER ==> (HasFinalizer(c', f) <==> HasFinalizer(c, f)))
    && (c'.driver.Some? ==> c.driver.Some?)
    && (c.driver.Some? && c'.driver.None? ==> c.driver.value.deleting)
    && (c.driver.Some? && c'.driver.Some? ==>
          c'.driver.value.spec == c.driver.value.spec && c'.driver.value.deleting == c.driver.value.deleting)
  }

  // ---- Writes ---------------------------------------------------------------------------------------------

  function PutDriver(c: Cluster, d: Driver): (c': Cluster)
  {
    if d.deleting && d.finalizers == [] then c.(driver := None, next := c.next + 1)
    else c.(driver := Some(d.(version := c.next)), next := c.next + 1)
  }

  function PutObject(c: Cluster, k: Key, o: Object): (c': Cluster)
  {
    c.(objects := c.objects[k := o.(version := c.next)], next := c.next + 1)
  }

  function DropObject(c: Cluster, k: Key): (c': Cluster)
  {
    c.(objects := c.objects - {k}, next := c.next + 1)
  }

  // ---- Everybody else -----------------------------------------------------------------------------------------

  datatype Action =
    | CreateDriver(spec: DriverSpec, finalizers: seq<string>)
    | EditDriver(spec: DriverSpec, conditions: seq<Condition>, finalizers: seq<string>)
    | DeleteDriver
    | CreateOther(k: Key, body: Body)
    | EditOther(k: Key, body: Body, wanted: int, ready: int)
    | DeleteOther(k: Key)

  /** Nobody else adds or removes the operator's finalizer. Anything else is possible at any time. */
  predicate Possible(c: Cluster, a: Action)
  {
    match a
    case CreateDriver(spec, finalizers) => c.driver.None? && FINALIZER !in finalizers
    case EditDriver(spec, conditions, finalizers) =>
      c.driver.Some? && (FINALIZER in finalizers <==> FINALIZER in c.driver.value.finalizers)
    case DeleteDriver => c.driver.Some?
    case CreateOther(k, body) => k !in c.objects
    case EditOther(k, body, wanted, ready) => k in c.objects
    case DeleteOther(k) => k in c.objects
  }

  function Act(c: Cluster, a: Action): (c': Cluster)
  {
    if !Possible(c, a) then c
    else
      match a
      case CreateDriver(spec, finalizers) => PutDriver(c, Driver(spec, [], finalizers, false, 0))
      case EditDriver(spec, conditions, finalizers) =>
        PutDriver(c, c.driver.value.(spec := spec, conditions := conditions, finalizers := finalizers))
      case DeleteDriver => PutDriver(c, c.driver.value.(deleting := true))
      case CreateOther(k, body) => PutObject(c, k, Object(body, 0, 0, 0, false))
      case EditOther(k, body, wanted, ready) =>
        PutObject(c, k, c.objects[k].(body := body, wanted := wanted, ready := ready))
      case DeleteOther(k) => DropObject(c, k)
  }

  function ActAll(c: Cluster, actions: seq<Action>): (c': Cluster)
  {
    if actions == [] then c else Act(ActAll(c, actions[..|actions| - 1]), actions[|actions| - 1])
  }

  /** What a later state keeps, unless the operator itself makes or lets go of something in between. */
  ghost predicate Keeps(c: Cluster, c': Cluster)
  {
    && WellFormed(c') && c.next <= c'.next
    && (Held(c) ==> Held(c'))
    && (forall k :: Ours(c', k) ==> Ours(c, k))
    && (c'.driver.Some? && c'.driver.value.version < c.next ==> c'.driver == c.driver)
  }

  lemma ActKeeps(c: Cluster, a: Action)
    requires WellFormed(c)
    ensures Keeps(c, Act(c, a))
  {
  }

  lemma KeepsThrough(c: Cluster, c1: Cluster, c2: Cluster)
    requires Keeps(c, c1) && Keeps(c1, c2)
    ensures Keeps(c, c2)
  {
  }

  lemma KeepsSafe(c: Cluster, c': Cluster)
    requires FinalizerSafe(c) && Keeps(c, c')
    ensures FinalizerSafe(c')
  {
  }

  /** A copy that was read once: if its version is still current, so is everything in it. */
  predicate CopyOf(d: Driver, c: Cluster)
  {
    d.version < c.next && (c.driver.Some? && c.driver.value.version == d.version ==> c.driver.value == d)
  }

  // ---- Conditions ---------------------------------------------------------------------------------------------

  function FindCondition(conditions: seq<Condition>, ctype: ConditionType): (r: Option<Condition>)
  {
    if conditions == [] then None
    else if conditions[0].ctype == ctype then Some(conditions[0])
    else FindCondition(conditions[1..], ctype)
  }

  /** The first condition of this type is brought up to date, or the condition is appended. */
  function SetCondition(conditions: seq<Condition>, x: Condition): (r: seq<Condition>)
  {
    if conditions == [] then [x]
    else if conditions[0].ctype == x.ctype then
      var since := if conditions[0].ready == x.ready then conditions[0].since else x.since;
      [x.(since := since)] + conditions[1..]
    else [conditions[0]] + SetCondition(conditions[1..], x)
  }

  predicate SameNews(x: Condition, y: Condition)
  {
    x.ctype == y.ctype && x.ready == y.ready && x.reason == y.reason && x.message == y.message
  }

  lemma {:induction false} FindAfterSet(conditions: seq<Condition>, x: Condition, ctype: ConditionType)
    ensures
      var r := FindCondition(SetCondition(conditions, x), ctype);
      if ctype == x.ctype then r.Some? && SameNews(r.value, x) else r == FindCondition(conditions, ctype)
  {
    if conditions != [] {
      var r := SetCondition(conditions, x);
      assert r != [] && (conditions[0].ctype == x.ctype ==> r[1..] == conditions[1..]);
      if conditions[0].ctype != x.ctype {
        assert r[1..] == SetCondition(conditions[1..], x);
        FindAfterSet(conditions[1..], x, ctype);
      }
    }
  }

  /** The time of a condition is that of its last change of readiness, and conditions of other types stay. */
  lemma {:induction false} SetKeepsTime(conditions: seq<Condition>, x: Condition)
    ensures
      var r, was := FindCondition(SetCondition(conditions, x), x.ctype), FindCondition(conditions, x.ctype);
      r.Some? && r.value.since == if was.Some? && was.value.ready == x.ready then was.value.since else x.since
    ensures OfOtherTypes(SetCondition(conditions, x), x.ctype) == OfOtherTypes(conditions, x.ctype)
  {
    if conditions != [] {
      var r := SetCondition(conditions, x);
      if conditions[0].ctype == x.ctype {
        assert r[1..] == conditions[1..];
      } else {
        assert r[1..] == SetCondition(conditions[1..], x);
        SetKeepsTime(conditions[1..], x);
      }
    }
  }

  function OfOtherTypes(conditions: seq<Condition>, ctype: ConditionType): (r: seq<Condition>)
  {
    if conditions == [] then []
    else (if conditions[0].ctype == ctype then [] else [conditions[0]]) + OfOtherTypes(conditions[1..], ctype)
  }

  /** Setting a condition changes nothing exactly if the condition already says so. */
  lemma {:induction false} SetChangesNothingExactly(conditions: seq<Condition>, x: Condition)
    ensures
      SetCondition(conditions, x) == conditions <==>
        (FindCondition(conditions, x.ctype).Some? && SameNews(FindCondition(conditions, x.ctype).value, x))
  {
    if conditions != [] {
      var r := SetCondition(conditions, x);
      if conditions[0].ctype == x.ctype {
        assert r[0].ready == x.ready && r[1..] == conditions[1..];
        if SameNews(conditions[0], x) {
          assert r == [conditions[0]] + conditions[1..] == conditions;
        }
      } else {
        SetChangesNothingExactly(conditions[1..], x);
        assert r[1..] == SetCondition(conditions[1..], x);
        assert conditions == [conditions[0]] + conditions[1..];
      }
    }
  }
}
