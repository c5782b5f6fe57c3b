/**
 * The Go reconciler's methods (edgelakeoperator_controller.go): the four
 * `reconcile*` steps, `reconcileResources`, `updateStatus`,
 * `handleDeletion` and `Reconcile`, each against the client of the
 * cluster and the fetched copy of the custom resource.
 */
module GoController {
  import opened Common
  import opened GoTypes
  import opened GoDefaults
  import opened GoObjects
  import opened GoConfigMap
  import opened GoService
  import opened GoPvc
  import opened GoDeployment
  import opened GoCluster
  import opened GoDecode
  import opened GoApply
  import opened GoStatus

  /**
   * What `Reconcile` asks the controller runtime for: nothing, an immediate
   * requeue, or a requeue after a delay; or it panics on a nil section of
   * the spec, and what the controller runtime makes of that is not part of
   * this model.
   */
  datatype Outcome = Done | Requeue | RequeueAfter(seconds: int) | Panicked

  const ResyncSeconds := 30

  /**
   * The step every `reconcile*` function spells out for its kind: fetch;
   * create on NotFound; stop on any other error; otherwise copy the desired
   * fields into the fetched copy and update it (a claim found is left alone).
   */
  method ApplyObject(client: Client, o: Object) returns (err: Option<ApiError>)
    requires client.Valid()
    modifies client
    ensures client.Valid() && client.crs == old(client.crs)
    ensures Written(err, client.objects) == ApplyOn(old(client.objects), client.faults, o)
  {
    var found := client.Get(KeyOf(o));
    if found.Err? && IsNotFound(found.err) {
      err := client.Create(o);
    } else if found.Err? {
      err := Some(found.err);
    } else if o.Pvc? {
      err := None;
    } else {
      err := client.Update(Merged(found.value, o));
    }
  }

  /** `reconcileConfigMap`. */
  method ReconcileConfigMap(client: Client, cr: EdgeLakeOperator) returns (err: Option<ApiError>)
    requires client.Valid() && ConfigMapBuildable(cr)
    modifies client
    ensures client.Valid() && client.crs == old(client.crs)
    ensures Written(err, client.objects) == ApplyOn(old(client.objects), client.faults, Controlled(BuildConfigMap(cr), cr.name))
  {
    var configMap := BuildConfigMap(cr);
    err := ApplyObject(client, Controlled(configMap, cr.name));
  }

  /** The loop of `reconcilePVCs`: each claim made owned and applied in turn, returning at the first error. */
  method ApplyClaims(client: Client, pvcs: seq<Object>, owner: string) returns (err: Option<ApiError>)
    requires client.Valid()
    modifies client
    ensures client.Valid() && client.crs == old(client.crs)
    ensures Written(err, client.objects) == ApplyAllOn(old(client.objects), client.faults, Owned(pvcs, owner))
  {
    for i := 0 to |pvcs|
      invariant client.Valid() && client.crs == old(client.crs)
      invariant Written(None, client.objects) == ApplyAllOn(old(client.objects), client.faults, Owned(pvcs[..i], owner))
    {
      ApplyPrefixStep(old(client.objects), client.faults, pvcs, i, owner);
      var e := ApplyObject(client, Controlled(pvcs[i], owner));
      if e.Some? {
        ApplyPrefixStops(old(client.objects), client.faults, pvcs, i + 1, owner);
        err := e;
        return;
      }
    }
    assert pvcs[..|pvcs|] == pvcs;
    err := None;
  }

  /** `reconcilePVCs`: the claims `BuildPVCs` returns, applied in order. */
  method ReconcilePvcs(client: Client, cr: EdgeLakeOperator) returns (err: Option<ApiError>)
    requires client.Valid() && PvcsBuildable(cr)
    modifies client
    ensures client.Valid() && client.crs == old(client.crs)
    ensures Written(err, client.objects) == ApplyAllOn(old(client.objects), client.faults, Owned(PvcsOf(cr), cr.name))
  {
    var pvcs := BuildPvcs(cr);
    err := ApplyClaims(client, pvcs, cr.name);
  }

  /** `reconcileService`. */
  method ReconcileService(client: Client, cr: EdgeLakeOperator) returns (err: Option<ApiError>)
    requires client.Valid() && DeploymentBuildable(cr)
    modifies client
    ensures client.Valid() && client.crs == old(client.crs)
    ensures Written(err, client.objects) == ApplyOn(old(client.objects), client.faults, Controlled(ServiceOf(cr), cr.name))
  {
    var service := BuildService(cr);
    err := ApplyObject(client, Controlled(service, cr.name));
  }

  /** `reconcileDeployment`. */
  method ReconcileDeployment(client: Client, cr: EdgeLakeOperator) returns (err: Option<ApiError>)
    requires client.Valid() && DeploymentBuildable(cr)
    modifies client
    ensures client.Valid() && client.crs == old(client.crs)
    ensures Written(err, client.objects) == ApplyOn(old(client.objects), client.faults, Controlled(DeploymentOf(cr), cr.name))
  {
    var deployment := BuildDeployment(cr);
    err := ApplyObject(client, Controlled(deployment, cr.name));
  }

  /**
   * The steps of `reconcileResources` after its status write, on the copy
   * `cr`: ConfigMap, claims (only with persistence enabled), Service and
   * Deployment, stopping at the first error, or panicking at the first
   * builder whose sections are nil.
   */
  method ApplyReached(client: Client, cr: EdgeLakeOperator) returns (err: Option<ApiError>, panicked: bool)
    requires client.Valid()
    modifies client
    ensures client.Valid() && client.crs == old(client.crs)
    ensures var w := ApplyAllOn(old(client.objects), client.faults, Owned(Reached(cr), cr.name));
      Written(err, client.objects) == w && (panicked <==> !Buildable(cr) && w.err.None?)
  {
    panicked := false;
    if !ConfigMapBuildable(cr) {
      assert Owned(Reached(cr), cr.name) == [];
      return None, true;
    }
    if !PvcsBuildable(cr) {
      ApplyHeadLayout(client.objects, client.faults, BuildConfigMap(cr), [], cr.name);
      err := ReconcileConfigMap(client, cr);
      panicked := err.None?;
      return;
    }
    if !DeploymentBuildable(cr) {
      ApplyHeadLayout(client.objects, client.faults, BuildConfigMap(cr), PvcsOf(cr), cr.name);
    } else {
      ApplyLayout(client.objects, client.faults, BuildConfigMap(cr), PvcsOf(cr), ServiceOf(cr), DeploymentOf(cr), cr.name);
    }
    err := ReconcileConfigMap(client, cr);
    if err.Some? {
      return;
    }
    if cr.spec.persistence.Some? && cr.spec.persistence.value.enabled {
      err := ReconcilePvcs(client, cr);
      if err.Some? {
        return;
      }
    } else {
      assert Owned(PvcsOf(cr), cr.name) == [];
    }
    if !DeploymentBuildable(cr) {
      panicked := true;
      return;
    }
    err := ReconcileService(client, cr);
    if err.Some? {
      return;
    }
    err := ReconcileDeployment(client, cr);
  }

  /**
   * `reconcileResources`: the phase becomes Creating and is written (the
   * write's outcome is ignored, but a write that goes through decodes the
   * stored resource into the copy); the builders then see that copy.
   */
  method ReconcileResources(client: Client, edgelake: Instance) returns (err: Option<ApiError>, panicked: bool)
    requires client.Valid()
    modifies client, edgelake
    ensures client.Valid()
    ensures var creating := old(edgelake.Value()).(status := old(edgelake.status).(phase := PhaseCreating));
      && edgelake.Value() == StatusReply(old(client.crs), client.faults, creating)
      && client.crs == UpdateCrStatusOn(old(client.crs), client.faults, creating).crs
    ensures var cr := edgelake.Value(); var w := ApplyAllOn(old(client.objects), client.faults, Owned(Reached(cr), cr.name));
      && Written(err, client.objects) == w
      && (panicked <==> !Buildable(cr) && w.err.None?)
  {
    edgelake.status := edgelake.status.(phase := PhaseCreating);
    var _ := client.UpdateResourceStatus(edgelake);
    err, panicked := ApplyReached(client, edgelake.Value());
  }

  /** The replica counts Kubernetes reports for the Deployment at `key`; zero when it reports none. */
  function ReportedState(deployments: map<ObjectKey, DeploymentState>, key: ObjectKey): DeploymentState {
    if key in deployments then deployments[key] else DeploymentState(0, 0)
  }

  /**
   * `updateStatus`: fetch the Deployment named after the application; on
   * NotFound the phase is Creating and not ready, on any other error stop
   * with it; a found Deployment decides Running or Creating and the Ready
   * condition. Then the names and the generation are recorded and the status
   * written, which decodes the reply into the copy when it goes through.
   */
  method UpdateStatus(client: Client, edgelake: Instance, now: int) returns (err: Option<ApiError>)
    requires client.Valid() && edgelake.spec.metadata.Some?
    modifies client, edgelake
    ensures client.Valid() && client.objects == old(client.objects)
    ensures var md := old(edgelake.spec).metadata.value; var key := DeploymentKey(edgelake.namespace, md.appName);
      var got := GetOn(client.objects, client.faults, key);
      if got.Err? && !IsNotFound(got.err) then
        err == Some(got.err) && edgelake.Value() == old(edgelake.Value()) && client.crs == old(client.crs)
      else
        var ds := ReportedState(client.deployments, key);
        var observed := old(edgelake.Value()).(status := ObservedStatus(old(edgelake.status), got.Ok?, ds.replicas, ds.readyReplicas,
                                                                        md, md.appName + DeploymentSuffix, edgelake.generation, now));
        && edgelake.Value() == StatusReply(old(client.crs), client.faults, observed)
        && CrWritten(err, client.crs) == UpdateCrStatusOn(old(client.crs), client.faults, observed)
  {
    var md := edgelake.spec.metadata.value;
    var deploymentName := md.appName + DeploymentSuffix;
    var key := ObjectKey(DeploymentKind, edgelake.namespace, deploymentName);
    var got := client.Get(key);
    if got.Err? {
      if IsNotFound(got.err) {
        edgelake.status := edgelake.status.(phase := PhaseCreating, ready := false);
      } else {
        err := Some(got.err);
        return;
      }
    } else {
      var ds := ReportedState(client.deployments, key);
      if ds.readyReplicas > 0 && ds.readyReplicas == ds.replicas {
        edgelake.status := edgelake.status.(phase := PhaseRunning, ready := true);
        edgelake.status := edgelake.status.(conditions := SetCondition(edgelake.status.conditions, ReadyCondition(true, now)));
      } else {
        edgelake.status := edgelake.status.(phase := PhaseCreating, ready := false);
        edgelake.status := edgelake.status.(conditions := SetCondition(edgelake.status.conditions, ReadyCondition(false, now)));
      }
    }
    edgelake.status := edgelake.status.(deploymentName := deploymentName, serviceName := md.serviceName,
                                        configMapName := md.configMapName, observedGeneration := edgelake.generation);
    err := client.UpdateResourceStatus(edgelake);
  }

  /**
   * `handleDeletion`: with the finalizer present it is removed and the
   * resource updated; the owned objects are left to Kubernetes' garbage
   * collector.
   */
  method HandleDeletion(client: Client, edgelake: Instance) returns (err: Option<ApiError>)
    requires client.Valid()
    modifies client, edgelake
    ensures client.Valid() && client.objects == old(client.objects)
    ensures edgelake.spec == old(edgelake.spec) && edgelake.status == old(edgelake.status)
    ensures edgelake.finalizers == Without(old(edgelake.finalizers), FinalizerName)
    ensures FinalizerName in old(edgelake.finalizers) ==>
      CrWritten(err, client.crs) == UpdateCrOn(old(client.crs), client.faults, edgelake.Value())
    ensures FinalizerName !in old(edgelake.finalizers) ==> err.None? && client.crs == old(client.crs)
  {
    err := None;
    if FinalizerName in edgelake.finalizers {
      edgelake.finalizers := Without(edgelake.finalizers, FinalizerName);
      err := client.UpdateResource(edgelake.Value());
    }
  }

  /** `Reconcile`'s first status write: an empty phase becomes Pending, and a write that goes through decodes the reply into the copy. */
  method MarkPending(client: Client, edgelake: Instance) returns (err: Option<ApiError>)
    requires client.Valid()
    modifies client, edgelake
    ensures client.Valid() && client.objects == old(client.objects)
    ensures old(edgelake.status.phase) != "" ==> err.None? && client.crs == old(client.crs) && edgelake.Value() == old(edgelake.Value())
    ensures old(edgelake.status.phase) == "" ==>
      var pending := old(edgelake.Value()).(status := old(edgelake.status).(phase := PhasePending));
      && edgelake.Value() == StatusReply(old(client.crs), client.faults, pending)
      && CrWritten(err, client.crs) == UpdateCrStatusOn(old(client.crs), client.faults, pending)
  {
    err := None;
    if edgelake.status.phase == "" {
      edgelake.status := edgelake.status.(phase := PhasePending);
      err := client.UpdateResourceStatus(edgelake);
    }
  }

  /** A failed `reconcileResources`: phase Failed, a False Ready condition with the error's message; the write's outcome is ignored. */
  method ReportFailure(client: Client, edgelake: Instance, e: ApiError, now: int)
    requires client.Valid()
    modifies client, edgelake
    ensures client.Valid() && client.objects == old(client.objects)
    ensures var failed := old(edgelake.Value()).(status := FailedStatus(old(edgelake.status), e.message, now));
      && edgelake.Value() == StatusReply(old(client.crs), client.faults, failed)
      && client.crs == UpdateCrStatusOn(old(client.crs), client.faults, failed).crs
  {
    edgelake.status := FailedStatus(edgelake.status, e.message, now);
    var _ := client.UpdateResourceStatus(edgelake);
  }

  /**
   * `Reconcile` once `reconcileResources` has returned `applyErr`, or
   * panicked: a panic ends the call; an error is reported as Failed and
   * returned; otherwise `updateStatus`, and a requeue after 30 seconds.
   */
  method Report(client: Client, edgelake: Instance, applyErr: Option<ApiError>, panicked: bool, now: int)
    returns (res: Outcome, err: Option<ApiError>)
    requires client.Valid() && (panicked ==> applyErr.None?)
    requires !panicked && applyErr.None? ==> edgelake.spec.metadata.Some?
    modifies client, edgelake
    ensures client.Valid() && client.objects == old(client.objects)
    ensures panicked ==> res == Panicked && err.None? && client.crs == old(client.crs)
    ensures var key := CrKeyOf(old(edgelake.Value()));
      applyErr.Some? ==>
        && res == Done && err == applyErr
        && (UpdateCrStatus(key) !in client.faults && key in old(client.crs) ==>
              key in client.crs && client.crs[key].status == FailedStatus(old(edgelake.status), applyErr.value.message, now))
    ensures var key := CrKeyOf(old(edgelake.Value()));
      !panicked && applyErr.None? ==>
        && (err.None? <==> res == RequeueAfter(ResyncSeconds)) && (err.Some? ==> res == Done)
        && (res == RequeueAfter(ResyncSeconds) ==>
              var md := old(edgelake.spec).metadata.value; var dk := DeploymentKey(edgelake.namespace, md.appName);
              var ds := ReportedState(client.deployments, dk);
              key in client.crs && client.crs[key].status ==
                ObservedStatus(old(edgelake.status), GetOn(client.objects, client.faults, dk).Ok?, ds.replicas, ds.readyReplicas,
                               md, md.appName + DeploymentSuffix, edgelake.generation, now))
        && (client.faults == map[] && key in old(client.crs) ==> res == RequeueAfter(ResyncSeconds))
  {
    if panicked {
      return Panicked, None;
    }
    if applyErr.Some? {
      ReportFailure(client, edgelake, applyErr.value, now);
      return Done, applyErr;
    }
    err := UpdateStatus(client, edgelake, now);
    res := if err.None? then RequeueAfter(ResyncSeconds) else Done;
  }

  /**
   * What a live reconcile leaves, for the copy `seen` its builders work
   * from: no error exactly when it requeues after 30 seconds or panics; a
   * requeue only when every section is set, with every owned object
   * applied; a panic only on a nil section, with the objects built before
   * it applied.
   */
  predicate Applied(objects0: map<ObjectKey, Object>, faults: map<Call, ApiError>, seen: EdgeLakeOperator,
                    objects: map<ObjectKey, Object>, res: Outcome, err: Option<ApiError>)
    requires WellKeyed(objects0)
  {
    && (err.None? <==> res == RequeueAfter(ResyncSeconds) || res == Panicked)
    && (err.Some? ==> res == Done)
    && (res == RequeueAfter(ResyncSeconds) ==>
          Buildable(seen) && Written(None, objects) == ApplyAllOn(objects0, faults, Owned(Desired(seen), seen.name)))
    && (res == Panicked ==>
          !Buildable(seen) && Written(None, objects) == ApplyAllOn(objects0, faults, Owned(Reached(seen), seen.name)))
  }

  /** Every object owned by `cr` is stored and reflects its build. */
  predicate Converged(objects: map<ObjectKey, Object>, cr: EdgeLakeOperator)
    requires Buildable(cr)
  {
    forall o | o in Owned(Desired(cr), cr.name) :: KeyOf(o) in objects && Reflects(objects[KeyOf(o)], o)
  }

  /** The status of the copy plays no part in what the builders apply. */
  lemma AppliedIgnoresStatus(objects0: map<ObjectKey, Object>, faults: map<Call, ApiError>, seen: EdgeLakeOperator,
                             st: EdgeLakeOperatorStatus, objects: map<ObjectKey, Object>, res: Outcome, err: Option<ApiError>)
    requires WellKeyed(objects0) && Applied(objects0, faults, seen.(status := st), objects, res, err)
    ensures Applied(objects0, faults, seen, objects, res, err)
  {
    ReachedIgnoresStatus(seen, st);
    if Buildable(seen) {
      DesiredIgnoresStatus(seen, st);
    }
  }

  /** Nor in whether the owned objects have converged. */
  lemma ConvergedIgnoresStatus(objects: map<ObjectKey, Object>, cr: EdgeLakeOperator, st: EdgeLakeOperatorStatus)
    requires Buildable(cr) && Converged(objects, cr.(status := st))
    ensures Buildable(cr.(status := st)) && Converged(objects, cr)
  {
    ReachedIgnoresStatus(cr, st);
    DesiredIgnoresStatus(cr, st);
  }

  /**
   * `Reconcile` from `reconcileResources` on: a panic of the builders ends
   * the call; on an error the status becomes Failed with a False Ready
   * condition (that write's outcome is ignored) and the error is returned;
   * otherwise `updateStatus`, and a requeue after 30 seconds. Everything is
   * built from the copy as the Creating write leaves it.
   */
  method ReconcileAndReport(client: Client, edgelake: Instance, now: int) returns (res: Outcome, err: Option<ApiError>)
    requires client.Valid()
    modifies client, edgelake
    ensures client.Valid()
    ensures var cr := old(edgelake.Value()); var key := CrKeyOf(cr);
      var seen := StatusReply(old(client.crs), client.faults, cr.(status := cr.status.(phase := PhaseCreating)));
      var w := ApplyAllOn(old(client.objects), client.faults, Owned(Reached(seen), seen.name));
      && client.objects == w.store
      && Applied(old(client.objects), client.faults, seen, client.objects, res, err)
      && (!Buildable(seen) && w.err.None? ==> res == Panicked)
      && (w.err.Some? ==> err == w.err)
      && (w.err.Some? && UpdateCrStatus(key) !in client.faults && key in old(client.crs) ==>
            key in client.crs && client.crs[key].status == FailedStatus(cr.status.(phase := PhaseCreating), w.err.value.message, now))
      && (res == RequeueAfter(ResyncSeconds) ==>
            var md := seen.spec.metadata.value; var dk := DeploymentKey(cr.namespace, md.appName);
            var ds := ReportedState(client.deployments, dk);
            key in client.crs && client.crs[key].status ==
              ObservedStatus(cr.status.(phase := PhaseCreating), GetOn(w.store, client.faults, dk).Ok?, ds.replicas, ds.readyReplicas,
                             md, md.appName + DeploymentSuffix, cr.generation, now))
    ensures var cr := old(edgelake.Value()); var key := CrKeyOf(cr);
      var seen := StatusReply(old(client.crs), client.faults, cr.(status := cr.status.(phase := PhaseCreating)));
      client.faults == map[] && key in old(client.crs) ==>
        && (!Buildable(seen) ==> res == Panicked)
        && (Buildable(seen) ==>
              var dk := DeploymentKey(cr.namespace, seen.spec.metadata.value.appName); var ds := ReportedState(client.deployments, dk);
              && err.None? && res == RequeueAfter(ResyncSeconds) && Converged(client.objects, seen)
              && key in client.crs && (client.crs[key].status.ready <==> DeploymentReady(ds.replicas, ds.readyReplicas)))
  {
    ghost var objects0 := client.objects;
    var applyErr, panicked := ReconcileResources(client, edgelake);
    ghost var seen := edgelake.Value();
    if client.faults == map[] {
      ApplyAllFaultFree(objects0, Owned(Reached(seen), seen.name));
      if Buildable(seen) {
        FaultFreeResources(objects0, seen);
      }
    }
    ReachedPrefix(seen);
    res, err := Report(client, edgelake, applyErr, panicked, now);
  }

  /**
   * The defaulted copy of the stored resource survives a status write
   * unchanged, whatever status it carries: in-memory defaulting keeps every
   * field the stored spec sets, so decoding the reply into the copy only
   * writes back values the copy already holds.
   */
  lemma DefaultedCopyKept(crs: map<CrKey, EdgeLakeOperator>, faults: map<Call, ApiError>, stored: EdgeLakeOperator,
                          st: EdgeLakeOperatorStatus)
    requires CrKeyOf(stored) in crs && crs[CrKeyOf(stored)].spec == stored.spec && crs[CrKeyOf(stored)].finalizers == stored.finalizers
    ensures StatusReply(crs, faults, DefaultedResource(stored).(status := st)) == DefaultedResource(stored).(status := st)
  {
    DefaultedHoldsStored(stored.spec, stored.name);
    StatusReplyKeepsHeld(crs, faults, DefaultedResource(stored).(status := st));
  }

  /** `MarkPending` on the defaulted copy of what the store holds: the copy keeps its spec and finalizers, and so does the store. */
  method MarkDefaultedPending(client: Client, edgelake: Instance, ghost stored: EdgeLakeOperator) returns (err: Option<ApiError>)
    requires client.Valid() && edgelake.Value() == DefaultedResource(stored)
    requires CrKeyOf(stored) in client.crs && client.crs[CrKeyOf(stored)] == stored
    modifies client, edgelake
    ensures client.Valid() && client.objects == old(client.objects)
    ensures edgelake.Value() == DefaultedResource(stored).(status := edgelake.status)
    ensures CrKeyOf(stored) in client.crs && client.crs[CrKeyOf(stored)] == stored.(status := client.crs[CrKeyOf(stored)].status)
    ensures edgelake.status == (if stored.status.phase == "" then stored.status.(phase := PhasePending) else stored.status)
    ensures err.None? <==> stored.status.phase != "" || UpdateCrStatus(CrKeyOf(stored)) !in client.faults
  {
    DefaultedCopyKept(client.crs, client.faults, stored, stored.status.(phase := PhasePending));
    err := MarkPending(client, edgelake);
  }

  /**
   * `Reconcile` past the finalizer check, for `edgelake` holding the
   * defaulted copy of `stored`, which is what the store holds. The status
   * writes leave that copy as it is, so the builders work from the
   * defaulted spec, never find a nil section and never panic.
   */
  method ReconcileLive(client: Client, edgelake: Instance, now: int, ghost stored: EdgeLakeOperator) returns (res: Outcome, err: Option<ApiError>)
    requires client.Valid() && edgelake.Value() == DefaultedResource(stored)
    requires CrKeyOf(stored) in client.crs && client.crs[CrKeyOf(stored)] == stored
    modifies client, edgelake
    ensures client.Valid() && res != Panicked
    ensures Applied(old(client.objects), client.faults, DefaultedResource(stored), client.objects, res, err)
    ensures client.faults == map[] ==>
      err.None? && res == RequeueAfter(ResyncSeconds) && Converged(client.objects, DefaultedResource(stored))
  {
    ghost var cr := DefaultedResource(stored);
    err := MarkDefaultedPending(client, edgelake, stored);
    if err.Some? {
      res := Done;
      return;
    }
    ghost var objects0 := client.objects;
    ghost var st := edgelake.status.(phase := PhaseCreating);
    DefaultedCopyKept(client.crs, client.faults, stored, st);
    res, err := ReconcileAndReport(client, edgelake, now);
    ReachedIgnoresStatus(cr, st);
    AppliedIgnoresStatus(objects0, client.faults, cr, st, client.objects, res, err);
    if client.faults == map[] {
      ConvergedIgnoresStatus(client.objects, cr, st);
    }
  }

  /**
   * `Reconcile` for the resource at `key`: fetch it (absent: done; other
   * error: returned); default its spec in memory; a resource being deleted
   * goes to `handleDeletion`; a missing finalizer is added, written with the
   * defaulted spec, and the request requeued; otherwise the live path, whose
   * builders see the defaulted copy.
   */
  method Reconcile(client: Client, key: CrKey, now: int) returns (res: Outcome, err: Option<ApiError>)
    requires client.Valid()
    modifies client
    ensures client.Valid()
    ensures var got := GetCrOn(old(client.crs), client.faults, key);
      got.Err? ==> res == Done && client.objects == old(client.objects) && client.crs == old(client.crs)
                   && err == (if IsNotFound(got.err) then None else Some(got.err))
    ensures GetCrOn(old(client.crs), client.faults, key).Ok? ==>
      var stored := old(client.crs)[key]; var cr := DefaultedResource(stored);
      && (stored.deletionRequested ==>
            && res == Done && client.objects == old(client.objects)
            && (FinalizerName in stored.finalizers ==>
                  CrWritten(err, client.crs) ==
                    UpdateCrOn(old(client.crs), client.faults, cr.(finalizers := Without(stored.finalizers, FinalizerName))))
            && (FinalizerName !in stored.finalizers ==> err.None? && client.crs == old(client.crs)))
      && (!stored.deletionRequested && FinalizerName !in stored.finalizers ==>
            && client.objects == old(client.objects)
            && CrWritten(err, client.crs) == UpdateCrOn(old(client.crs), client.faults, cr.(finalizers := WithFinalizer(stored.finalizers, FinalizerName)))
            && res == (if err.None? then Requeue else Done))
      && (!stored.deletionRequested && FinalizerName in stored.finalizers ==>
            res != Panicked && Applied(old(client.objects), client.faults, cr, client.objects, res, err))
    ensures client.faults == map[] && key in old(client.crs) ==>
      var stored := old(client.crs)[key];
      !stored.deletionRequested && FinalizerName in stored.finalizers ==>
        err.None? && res == RequeueAfter(ResyncSeconds) && Converged(client.objects, DefaultedResource(stored))
  {
    var got := client.GetResource(key);
    if got.Err? {
      res := Done;
      err := if IsNotFound(got.err) then None else Some(got.err);
      return;
    }
    var edgelake := new Instance(got.value);
    SetDefaults(edgelake);
    assert edgelake.Value() == DefaultedResource(got.value);
    if edgelake.deletionRequested {
      err := HandleDeletion(client, edgelake);
      res := Done;
      return;
    }
    if FinalizerName !in edgelake.finalizers {
      edgelake.finalizers := WithFinalizer(edgelake.finalizers, FinalizerName);
      err := client.UpdateResource(edgelake.Value());
      res := if err.None? then Requeue else Done;
      return;
    }
    res, err := ReconcileLive(client, edgelake, now, got.value);
  }
}
