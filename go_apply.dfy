/**
 * `reconcileConfigMap`, `reconcilePVCs`, `reconcileService`,
 * `reconcileDeployment` and `reconcileResources` of the Go reconciler
 * (edgelakeoperator_controller.go): each desired object is made the
 * resource's controlled child, fetched, created when absent and otherwise
 * merged into the fetched copy and written back.
 */
module GoApply {
  import opened Common
  import opened GoTypes
  import opened GoObjects
  import opened GoLabels
  import opened GoConfigMap
  import opened GoService
  import opened GoPvc
  import opened GoDeployment
  import opened GoCluster
  import opened GoDefaults

  /**
   * The fetched object after the update step: a ConfigMap takes the desired
   * data, a Service the desired ports, type and selector, a Deployment the
   * desired spec. Everything else of the fetched copy, its metadata
   * included, is kept; a claim is never changed.
   */
  function Merged(found: Object, desired: Object): (r: Object)
    ensures r.meta == found.meta && KindOf(r) == KindOf(found)
    ensures found.ConfigMap? && desired.ConfigMap? ==> r.data == desired.data
    ensures found.Service? && desired.Service? ==>
      r.service == found.service.(ports := desired.service.ports, serviceType := desired.service.serviceType,
                                  selector := desired.service.selector)
    ensures found.Deployment? && desired.Deployment? ==> r.deployment == desired.deployment
    ensures found.Pvc? ==> r == found
  {
    match (found, desired)
    case (ConfigMap(m, _), ConfigMap(_, data)) => ConfigMap(m, data)
    case (Service(m, s), Service(_, d)) =>
      Service(m, s.(ports := d.ports, serviceType := d.serviceType, selector := d.selector))
    case (Deployment(m, _), Deployment(_, d)) => Deployment(m, d)
    case _ => found
  }

  /** Merging is idempotent, and an object merged with itself is unchanged. */
  lemma MergedIdempotent(found: Object, desired: Object)
    ensures Merged(Merged(found, desired), desired) == Merged(found, desired)
    ensures Merged(desired, desired) == desired
  {
  }

  /**
   * One `reconcile*` step on the object store: fetch; on NotFound create;
   * on any other error stop with it; a claim found is left alone; anything
   * else found is merged and updated.
   */
  function ApplyOn(store: map<ObjectKey, Object>, faults: map<Call, ApiError>, o: Object): (w: Written)
    requires WellKeyed(store)
    ensures WellKeyed(w.store)
    ensures w.err.Some? ==> w.store == store
    ensures w.err.None? ==> KeyOf(o) in w.store && w.store == store[KeyOf(o) := w.store[KeyOf(o)]]
  {
    var key := KeyOf(o);
    var got := GetOn(store, faults, key);
    if got.Err? && IsNotFound(got.err) then CreateOn(store, faults, o)
    else if got.Err? then Written(Some(got.err), store)
    else if o.Pvc? then Written(None, store)
    else UpdateOn(store, faults, Merged(got.value, o))
  }

  /** The API server refuses none of the three calls a step makes on `key`. */
  predicate Unrefused(faults: map<Call, ApiError>, key: ObjectKey) {
    GetObject(key) !in faults && CreateObject(key) !in faults && UpdateObject(key) !in faults
  }

  /** A step touches no key but the object's own. */
  lemma ApplyTouchesOnlyItsKey(store: map<ObjectKey, Object>, faults: map<Call, ApiError>, o: Object, k: ObjectKey)
    requires WellKeyed(store) && k != KeyOf(o)
    ensures k in ApplyOn(store, faults, o).store <==> k in store
    ensures k in store ==> ApplyOn(store, faults, o).store[k] == store[k]
  {
  }

  /**
   * An unrefused step succeeds: it creates the object when absent, leaves a
   * found claim alone, and otherwise stores the found copy merged with it.
   */
  lemma ApplyUnrefused(store: map<ObjectKey, Object>, faults: map<Call, ApiError>, o: Object)
    requires WellKeyed(store) && Unrefused(faults, KeyOf(o))
    ensures var w := ApplyOn(store, faults, o);
      && w.err.None?
      && (KeyOf(o) !in store ==> w.store == store[KeyOf(o) := o])
      && (KeyOf(o) in store ==> w.store == store[KeyOf(o) := Merged(store[KeyOf(o)], o)])
  {
    var key := KeyOf(o);
    if key in store {
      var m := Merged(store[key], o);
      assert KeyOf(m) == key;
      if o.Pvc? {
        assert KindOf(store[key]) == PvcKind;
        assert store[key := m] == store;
      }
    }
  }

  /** A stored object reflects a desired one when a further step would not change it. */
  predicate Reflects(stored: Object, desired: Object) {
    Merged(stored, desired) == stored
  }

  /** After an unrefused step, the object's key holds a copy that reflects it: a second step changes nothing. */
  lemma ApplyConverges(store: map<ObjectKey, Object>, faults: map<Call, ApiError>, o: Object)
    requires WellKeyed(store) && Unrefused(faults, KeyOf(o))
    ensures var w := ApplyOn(store, faults, o);
      KeyOf(o) in w.store && Reflects(w.store[KeyOf(o)], o) && ApplyOn(w.store, faults, o) == Written(None, w.store)
  {
    ApplyUnrefused(store, faults, o);
    var w := ApplyOn(store, faults, o);
    MergedIdempotent(if KeyOf(o) in store then store[KeyOf(o)] else o, o);
    ApplyUnrefused(w.store, faults, o);
    assert w.store[KeyOf(o) := Merged(w.store[KeyOf(o)], o)] == w.store;
  }

  /** `reconcileResources`' sequence of steps: each in turn, stopping at the first error. */
  function ApplyAllOn(store: map<ObjectKey, Object>, faults: map<Call, ApiError>, objs: seq<Object>): (w: Written)
    requires WellKeyed(store)
    ensures WellKeyed(w.store)
    decreases |objs|
  {
    if |objs| == 0 then Written(None, store)
    else
      var w := ApplyOn(store, faults, objs[0]);
      if w.err.Some? then w else ApplyAllOn(w.store, faults, objs[1..])
  }

  /** Running two sequences is running the first, then, if it succeeded, the second. */
  lemma {:induction false} ApplyAllAppend(store: map<ObjectKey, Object>, faults: map<Call, ApiError>, xs: seq<Object>, ys: seq<Object>)
    requires WellKeyed(store)
    ensures var w := ApplyAllOn(store, faults, xs);
      ApplyAllOn(store, faults, xs + ys) == if w.err.Some? then w else ApplyAllOn(w.store, faults, ys)
    decreases |xs|
  {
    if |xs| > 0 {
      assert (xs + ys)[0] == xs[0] && (xs + ys)[1..] == xs[1..] + ys;
      var w := ApplyOn(store, faults, xs[0]);
      if w.err.None? {
        ApplyAllAppend(w.store, faults, xs[1..], ys);
      }
    } else {
      assert xs + ys == ys;
    }
  }

  lemma ApplyAllOne(store: map<ObjectKey, Object>, faults: map<Call, ApiError>, o: Object)
    requires WellKeyed(store)
    ensures ApplyAllOn(store, faults, [o]) == ApplyOn(store, faults, o)
  {
    var w := ApplyOn(store, faults, o);
    if w.err.None? {
      assert [o][1..] == [];
    }
  }

  /** The objects' keys are pairwise distinct. */
  predicate DistinctKeys(objs: seq<Object>) {
    forall i, j | 0 <= i < j < |objs| :: KeyOf(objs[i]) != KeyOf(objs[j])
  }

  /** The sequence keeps the keys it does not name. */
  lemma {:induction false} ApplyAllTouchesOnlyItsKeys(store: map<ObjectKey, Object>, faults: map<Call, ApiError>, objs: seq<Object>, k: ObjectKey)
    requires WellKeyed(store) && forall o | o in objs :: KeyOf(o) != k
    ensures k in ApplyAllOn(store, faults, objs).store <==> k in store
    ensures k in store ==> ApplyAllOn(store, faults, objs).store[k] == store[k]
    decreases |objs|
  {
    if |objs| > 0 {
      ApplyTouchesOnlyItsKey(store, faults, objs[0], k);
      var w := ApplyOn(store, faults, objs[0]);
      if w.err.None? {
        ApplyAllTouchesOnlyItsKeys(w.store, faults, objs[1..], k);
      }
    }
  }

  /**
   * Convergence: when the API server refuses nothing on the objects' keys
   * and the keys are distinct, the sequence succeeds and leaves every
   * object's key holding a copy that reflects it.
   */
  lemma {:induction false} ApplyAllConverges(store: map<ObjectKey, Object>, faults: map<Call, ApiError>, objs: seq<Object>)
    requires WellKeyed(store) && DistinctKeys(objs)
    requires forall o | o in objs :: Unrefused(faults, KeyOf(o))
    ensures var w := ApplyAllOn(store, faults, objs);
      w.err.None? && forall o | o in objs :: KeyOf(o) in w.store && Reflects(w.store[KeyOf(o)], o)
    decreases |objs|
  {
    if |objs| > 0 {
      var o := objs[0];
      ApplyConverges(store, faults, o);
      var w := ApplyOn(store, faults, o);
      var rest := objs[1..];
      assert DistinctKeys(rest) by {
        forall i, j | 0 <= i < j < |rest| ensures KeyOf(rest[i]) != KeyOf(rest[j]) {
          assert rest[i] == objs[i + 1] && rest[j] == objs[j + 1];
        }
      }
      ApplyAllConverges(w.store, faults, rest);
      forall p | p in rest ensures KeyOf(p) != KeyOf(o) {
        var i :| 0 <= i < |rest| && rest[i] == p;
        assert objs[i + 1] == p;
      }
      ApplyAllTouchesOnlyItsKeys(w.store, faults, rest, KeyOf(o));
    }
  }

  /** An API server that refuses nothing lets every sequence of steps through. */
  lemma {:induction false} ApplyAllFaultFree(store: map<ObjectKey, Object>, objs: seq<Object>)
    requires WellKeyed(store)
    ensures ApplyAllOn(store, map[], objs).err.None?
    decreases |objs|
  {
    if |objs| > 0 {
      ApplyUnrefused(store, map[], objs[0]);
      ApplyAllFaultFree(ApplyOn(store, map[], objs[0]).store, objs[1..]);
    }
  }

  /** Each object with the resource named `owner` as its controlling owner. */
  function Owned(objs: seq<Object>, owner: string): (r: seq<Object>)
    ensures |r| == |objs| && forall i | 0 <= i < |objs| :: r[i] == Controlled(objs[i], owner)
  {
    seq(|objs|, i requires 0 <= i < |objs| => Controlled(objs[i], owner))
  }

  lemma OwnedAppend(xs: seq<Object>, ys: seq<Object>, owner: string)
    ensures Owned(xs + ys, owner) == Owned(xs, owner) + Owned(ys, owner)
  {
    assert |Owned(xs + ys, owner)| == |Owned(xs, owner) + Owned(ys, owner)|;
  }

  /** A step whose object is already reflected, and which is not refused, changes nothing. */
  lemma ApplyReflected(store: map<ObjectKey, Object>, faults: map<Call, ApiError>, o: Object)
    requires WellKeyed(store) && Unrefused(faults, KeyOf(o))
    requires KeyOf(o) in store && Reflects(store[KeyOf(o)], o)
    ensures ApplyOn(store, faults, o) == Written(None, store)
  {
    ApplyUnrefused(store, faults, o);
    assert store[KeyOf(o) := store[KeyOf(o)]] == store;
  }

  /** Stability: re-running the steps on a store that already reflects them changes nothing. */
  lemma {:induction false} ApplyAllReflected(store: map<ObjectKey, Object>, faults: map<Call, ApiError>, objs: seq<Object>)
    requires WellKeyed(store)
    requires forall o | o in objs :: Unrefused(faults, KeyOf(o)) && KeyOf(o) in store && Reflects(store[KeyOf(o)], o)
    ensures ApplyAllOn(store, faults, objs) == Written(None, store)
    decreases |objs|
  {
    if |objs| > 0 {
      ApplyReflected(store, faults, objs[0]);
      assert forall o | o in objs[1..] :: o in objs;
      ApplyAllReflected(store, faults, objs[1..]);
    }
  }

  /**
   * `reconcileResources`' order: the ConfigMap step, then the claims, then
   * the Service, then the Deployment, each only if everything before it
   * succeeded.
   */
  lemma ApplyLayout(store: map<ObjectKey, Object>, faults: map<Call, ApiError>, cm: Object, ps: seq<Object>,
                    svc: Object, dep: Object, owner: string)
    requires WellKeyed(store)
    ensures ApplyAllOn(store, faults, Owned([cm] + ps + [svc, dep], owner)) ==
      var w1 := ApplyOn(store, faults, Controlled(cm, owner));
      if w1.err.Some? then w1 else
      var w2 := ApplyAllOn(w1.store, faults, Owned(ps, owner));
      if w2.err.Some? then w2 else
      var w3 := ApplyOn(w2.store, faults, Controlled(svc, owner));
      if w3.err.Some? then w3 else ApplyOn(w3.store, faults, Controlled(dep, owner))
  {
    var a, b, c := Owned([cm], owner), Owned(ps, owner), Owned([svc, dep], owner);
    OwnedAppend([cm], ps, owner);
    OwnedAppend([cm] + ps, [svc, dep], owner);
    assert a == [Controlled(cm, owner)] && c == [Controlled(svc, owner)] + [Controlled(dep, owner)];
    ApplyAllAppend(store, faults, a + b, c);
    ApplyAllAppend(store, faults, a, b);
    ApplyAllOne(store, faults, Controlled(cm, owner));
    var w2 := ApplyAllOn(store, faults, a + b);
    if w2.err.None? {
      ApplyAllAppend(w2.store, faults, [Controlled(svc, owner)], [Controlled(dep, owner)]);
      ApplyAllOne(w2.store, faults, Controlled(svc, owner));
      var w3 := ApplyOn(w2.store, faults, Controlled(svc, owner));
      if w3.err.None? {
        ApplyAllOne(w3.store, faults, Controlled(dep, owner));
      }
    }
  }

  /** The ConfigMap step followed by the claims, as `reconcileResources` runs them before the Service. */
  lemma ApplyHeadLayout(store: map<ObjectKey, Object>, faults: map<Call, ApiError>, cm: Object, ps: seq<Object>, owner: string)
    requires WellKeyed(store)
    ensures ApplyAllOn(store, faults, Owned([cm], owner)) == ApplyOn(store, faults, Controlled(cm, owner))
    ensures ApplyAllOn(store, faults, Owned([cm] + ps, owner)) ==
      var w1 := ApplyOn(store, faults, Controlled(cm, owner));
      if w1.err.Some? then w1 else ApplyAllOn(w1.store, faults, Owned(ps, owner))
  {
    OwnedAppend([cm], ps, owner);
    assert Owned([cm], owner) == [Controlled(cm, owner)];
    ApplyAllOne(store, faults, Controlled(cm, owner));
    ApplyAllAppend(store, faults, Owned([cm], owner), Owned(ps, owner));
  }

  /** One step further along `objs`: the steps so far, then the next one if they succeeded. */
  lemma ApplyPrefixStep(store: map<ObjectKey, Object>, faults: map<Call, ApiError>, objs: seq<Object>, i: nat, owner: string)
    requires WellKeyed(store) && i < |objs|
    ensures var w := ApplyAllOn(store, faults, Owned(objs[..i], owner));
      ApplyAllOn(store, faults, Owned(objs[..i + 1], owner)) ==
        if w.err.Some? then w else ApplyOn(w.store, faults, Controlled(objs[i], owner))
  {
    assert objs[..i + 1] == objs[..i] + [objs[i]];
    OwnedAppend(objs[..i], [objs[i]], owner);
    assert Owned([objs[i]], owner) == [Controlled(objs[i], owner)];
    ApplyAllAppend(store, faults, Owned(objs[..i], owner), [Controlled(objs[i], owner)]);
    var w := ApplyAllOn(store, faults, Owned(objs[..i], owner));
    if w.err.None? {
      ApplyAllOne(w.store, faults, Controlled(objs[i], owner));
    }
  }

  /** A prefix that fails decides the whole sequence: nothing after the first error runs. */
  lemma ApplyPrefixStops(store: map<ObjectKey, Object>, faults: map<Call, ApiError>, objs: seq<Object>, i: nat, owner: string)
    requires WellKeyed(store) && i <= |objs|
    requires ApplyAllOn(store, faults, Owned(objs[..i], owner)).err.Some?
    ensures ApplyAllOn(store, faults, Owned(objs, owner)) == ApplyAllOn(store, faults, Owned(objs[..i], owner))
  {
    assert objs == objs[..i] + objs[i..];
    OwnedAppend(objs[..i], objs[i..], owner);
    ApplyAllAppend(store, faults, Owned(objs[..i], owner), Owned(objs[i..], owner));
  }

  /** What all four builders dereference; `setDefaults` provides it. */
  predicate Buildable(cr: EdgeLakeOperator) {
    ConfigMapBuildable(cr) && PvcsBuildable(cr) && DeploymentBuildable(cr)
  }

  /** `setDefaults` leaves every section the builders dereference non-nil. */
  lemma DefaultedIsBuildable(cr: EdgeLakeOperator)
    ensures Buildable(cr.(spec := Defaulted(cr.spec, cr.name)))
  {
    var s := Defaulted(cr.spec, cr.name);
    assert PersistenceComplete(s.persistence.value);
  }

  /**
   * The objects `reconcileResources` applies, in order: the ConfigMap, the
   * claims (none unless persistence is enabled), the Service, the Deployment.
   */
  function Desired(cr: EdgeLakeOperator): seq<Object>
    requires Buildable(cr)
  {
    [BuildConfigMap(cr)] + PvcsOf(cr) + [ServiceOf(cr), DeploymentOf(cr)]
  }

  /** The resource as `Reconcile` holds it after `setDefaults`. */
  function DefaultedResource(stored: EdgeLakeOperator): (cr: EdgeLakeOperator)
    ensures Buildable(cr) && cr.name == stored.name && cr.namespace == stored.namespace
  {
    DefaultedIsBuildable(stored);
    stored.(spec := Defaulted(stored.spec, stored.name))
  }

  /**
   * The objects `reconcileResources` builds, in order, before it finishes
   * or dereferences a nil section and panics: none when the ConfigMap
   * cannot be built, the ConfigMap alone when enabled claims cannot be, the
   * ConfigMap and the claims when the Service cannot be, otherwise all four
   * kinds.
   */
  function Reached(cr: EdgeLakeOperator): seq<Object> {
    if !ConfigMapBuildable(cr) then []
    else if !PvcsBuildable(cr) then [BuildConfigMap(cr)]
    else if !DeploymentBuildable(cr) then [BuildConfigMap(cr)] + PvcsOf(cr)
    else Desired(cr)
  }

  /**
   * A resource that can be built is built in full; one that cannot stops
   * short of the Deployment, and only a resource that cannot build its
   * ConfigMap builds nothing.
   */
  lemma ReachedPrefix(cr: EdgeLakeOperator)
    ensures Buildable(cr) ==> Reached(cr) == Desired(cr)
    ensures !Buildable(cr) ==> forall o | o in Reached(cr) :: !o.Deployment?
    ensures Reached(cr) == [] <==> !ConfigMapBuildable(cr)
  {
    if !Buildable(cr) && ConfigMapBuildable(cr) {
      assert Reached(cr)[0] == BuildConfigMap(cr);
      if PvcsBuildable(cr) {
        assert forall o | o in PvcsOf(cr) :: o.Pvc?;
      }
    }
  }

  /** The claims are all of kind claim and, once owned, sit under pairwise distinct keys. */
  lemma ClaimKeysDistinct(cr: EdgeLakeOperator, owner: string)
    requires PvcsBuildable(cr)
    ensures forall p | p in PvcsOf(cr) :: KindOf(p) == PvcKind
    ensures DistinctKeys(Owned(PvcsOf(cr), owner))
  {
    if PersistenceEnabled(cr) {
      var names := ClaimNames(cr.spec.metadata.value.appName);
      ClaimNamesDistinct(cr.spec.metadata.value.appName);
      var ps := Owned(PvcsOf(cr), owner);
      assert forall i | 0 <= i < 4 :: ps[i].meta.name == names[i];
    }
  }

  /**
   * A ConfigMap, claims under distinct keys, a Service and a Deployment,
   * all owned: every key is distinct, as the four kinds differ.
   */
  lemma OwnedLayoutDistinct(cm: Object, ps: seq<Object>, svc: Object, dep: Object, owner: string)
    requires KindOf(cm) == ConfigMapKind && KindOf(svc) == ServiceKind && KindOf(dep) == DeploymentKind
    requires forall p | p in ps :: KindOf(p) == PvcKind
    requires DistinctKeys(Owned(ps, owner))
    ensures DistinctKeys(Owned([cm] + ps + [svc, dep], owner))
  {
    var d := Owned([cm] + ps + [svc, dep], owner);
    var qs := Owned(ps, owner);
    forall i, j | 0 <= i < j < |d| ensures KeyOf(d[i]) != KeyOf(d[j]) {
      if 1 <= i && j <= |ps| {
        assert d[i] == qs[i - 1] && d[j] == qs[j - 1];
      } else if 1 <= i <= |ps| {
        assert ps[i - 1] in ps;
      } else if 1 <= j <= |ps| {
        assert ps[j - 1] in ps;
      }
    }
  }

  lemma ConfigMapIgnoresStatus(cr: EdgeLakeOperator, st: EdgeLakeOperatorStatus)
    requires ConfigMapBuildable(cr)
    ensures BuildConfigMap(cr.(status := st)) == BuildConfigMap(cr)
  {
  }

  lemma ClaimsIgnoreStatus(cr: EdgeLakeOperator, st: EdgeLakeOperatorStatus)
    requires PvcsBuildable(cr)
    ensures PvcsOf(cr.(status := st)) == PvcsOf(cr)
  {
  }

  lemma ServiceAndDeploymentIgnoreStatus(cr: EdgeLakeOperator, st: EdgeLakeOperatorStatus)
    requires DeploymentBuildable(cr)
    ensures ServiceOf(cr.(status := st)) == ServiceOf(cr) && DeploymentOf(cr.(status := st)) == DeploymentOf(cr)
  {
  }

  /** Which builders can run does not depend on the status, nor does what each of them builds. */
  lemma ReachedIgnoresStatus(cr: EdgeLakeOperator, st: EdgeLakeOperatorStatus)
    ensures Buildable(cr.(status := st)) == Buildable(cr)
    ensures Reached(cr.(status := st)) == Reached(cr)
  {
    var cr' := cr.(status := st);
    assert cr'.spec == cr.spec && cr'.name == cr.name && cr'.namespace == cr.namespace;
    if ConfigMapBuildable(cr) {
      ConfigMapIgnoresStatus(cr, st);
      if PvcsBuildable(cr) {
        ClaimsIgnoreStatus(cr, st);
        if DeploymentBuildable(cr) {
          ServiceAndDeploymentIgnoreStatus(cr, st);
        }
      }
    }
  }

  /** The builders never read the status: the desired objects are the same whatever it holds. */
  lemma DesiredIgnoresStatus(cr: EdgeLakeOperator, st: EdgeLakeOperatorStatus)
    requires Buildable(cr)
    ensures Desired(cr.(status := st)) == Desired(cr)
  {
    ConfigMapIgnoresStatus(cr, st);
    ClaimsIgnoreStatus(cr, st);
    ServiceAndDeploymentIgnoreStatus(cr, st);
  }

  /** The key `updateStatus` fetches: the Deployment named after the application, in the resource's namespace. */
  function DeploymentKey(namespace: string, appName: string): ObjectKey {
    ObjectKey(DeploymentKind, namespace, appName + DeploymentSuffix)
  }

  /** `updateStatus` looks up exactly the Deployment that `reconcileDeployment` writes, the last desired object. */
  lemma DesiredDeploymentKey(cr: EdgeLakeOperator)
    requires Buildable(cr)
    ensures var objs := Owned(Desired(cr), cr.name);
      |objs| > 0 && KeyOf(objs[|objs| - 1]) == DeploymentKey(cr.namespace, cr.spec.metadata.value.appName)
  {
    var d := Desired(cr);
    assert d[|d| - 1] == DeploymentOf(cr);
  }

  /** The desired objects sit under pairwise distinct keys: one ConfigMap, distinctly named claims, one Service, one Deployment. */
  lemma DesiredKeysDistinct(cr: EdgeLakeOperator)
    requires Buildable(cr)
    ensures DistinctKeys(Owned(Desired(cr), cr.name))
  {
    ClaimKeysDistinct(cr, cr.name);
    OwnedLayoutDistinct(BuildConfigMap(cr), PvcsOf(cr), ServiceOf(cr), DeploymentOf(cr), cr.name);
  }

  /** The on-cluster effect of `reconcileResources` on the object store, for an unrefused cluster: every desired object reflected. */
  lemma ReconcileResourcesConverges(store: map<ObjectKey, Object>, faults: map<Call, ApiError>, cr: EdgeLakeOperator)
    requires WellKeyed(store) && Buildable(cr)
    requires forall o | o in Owned(Desired(cr), cr.name) :: Unrefused(faults, KeyOf(o))
    ensures var objs := Owned(Desired(cr), cr.name); var w := ApplyAllOn(store, faults, objs);
      w.err.None? && forall o | o in objs :: KeyOf(o) in w.store && Reflects(w.store[KeyOf(o)], o)
  {
    DesiredKeysDistinct(cr);
    ApplyAllConverges(store, faults, Owned(Desired(cr), cr.name));
  }

  /**
   * With an API server that refuses nothing, `reconcileResources` succeeds,
   * every desired object is reflected afterwards, and the Deployment that
   * `updateStatus` then fetches is there.
   */
  lemma FaultFreeResources(store: map<ObjectKey, Object>, cr: EdgeLakeOperator)
    requires WellKeyed(store) && Buildable(cr)
    ensures var objs := Owned(Desired(cr), cr.name); var w := ApplyAllOn(store, map[], objs);
      && w.err.None?
      && (forall o | o in objs :: KeyOf(o) in w.store && Reflects(w.store[KeyOf(o)], o))
      && DeploymentKey(cr.namespace, cr.spec.metadata.value.appName) in w.store
  {
    var objs := Owned(Desired(cr), cr.name);
    ReconcileResourcesConverges(store, map[], cr);
    DesiredDeploymentKey(cr);
    assert objs[|objs| - 1] in objs;
  }
}
