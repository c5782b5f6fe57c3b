/**
 * The status and finalizer bookkeeping of the Go reconciler
 * (edgelakeoperator_controller.go): its constants, `meta.SetStatusCondition`
 * and `controllerutil`'s finalizer helpers, and the status `updateStatus`
 * computes from the Deployment it observes.
 */
module GoStatus {
  import opened Common
  import opened GoTypes

  const FinalizerName := "edgelake.trv.io/finalizer"

  const ConditionReady := "Ready"
  const ConditionConfigured := "Configured"
  const ConditionDeployed := "Deployed"

  const PhasePending := "Pending"
  const PhaseCreating := "Creating"
  const PhaseRunning := "Running"
  const PhaseFailed := "Failed"

  const ConditionTrue := "True"
  const ConditionFalse := "False"

  const ReasonReconciliationFailed := "ReconciliationFailed"
  const ReasonDeploymentReady := "DeploymentReady"
  const ReasonDeploymentNotReady := "DeploymentNotReady"
  const MessageDeploymentReady := "EdgeLake deployment is ready"
  const MessageDeploymentNotReady := "EdgeLake deployment is not ready"

  /** `meta.FindStatusCondition`: the first condition of type `t`, if any. */
  function FindCondition(conds: seq<Condition>, t: string): (r: Option<Condition>)
    ensures r.Some? <==> exists i | 0 <= i < |conds| :: conds[i].condType == t
    ensures r.Some? ==> r.value in conds && r.value.condType == t
  {
    if |conds| == 0 then None
    else if conds[0].condType == t then Some(conds[0])
    else
      var r := FindCondition(conds[1..], t);
      assert forall i | 1 <= i < |conds| :: conds[i] == conds[1..][i - 1];
      r
  }

  /**
   * An existing condition updated to `c`: status, reason and message are
   * taken from `c`; the transition time moves to `c`'s only when the
   * status changes.
   */
  function Updated(existing: Condition, c: Condition): (r: Condition)
    ensures r.condType == existing.condType && r.status == c.status && r.reason == c.reason && r.message == c.message
    ensures r.lastTransitionTime == if existing.status == c.status then existing.lastTransitionTime else c.lastTransitionTime
  {
    existing.(status := c.status, reason := c.reason, message := c.message,
              lastTransitionTime := if existing.status != c.status then c.lastTransitionTime else existing.lastTransitionTime)
  }

  /**
   * `meta.SetStatusCondition` with a non-zero transition time: the first
   * condition of `c`'s type is updated to `c`, or `c` is appended when there
   * is none.
   */
  function SetCondition(conds: seq<Condition>, c: Condition): (r: seq<Condition>)
    ensures |r| == if FindCondition(conds, c.condType).Some? then |conds| else |conds| + 1
    decreases |conds|
  {
    if |conds| == 0 then [c]
    else if conds[0].condType == c.condType then [Updated(conds[0], c)] + conds[1..]
    else [conds[0]] + SetCondition(conds[1..], c)
  }

  /** After `SetCondition`, looking up `c`'s type finds `c` merged into what was there, and every other type finds what it found before. */
  lemma {:induction false} SetConditionFinds(conds: seq<Condition>, c: Condition, t: string)
    ensures var found := FindCondition(SetCondition(conds, c), t);
      && (t == c.condType ==> found == Some(
             match FindCondition(conds, t) case None => c case Some(e) => Updated(e, c)))
      && (t != c.condType ==> found == FindCondition(conds, t))
    decreases |conds|
  {
    if |conds| > 0 && conds[0].condType != c.condType {
      SetConditionFinds(conds[1..], c, t);
      assert SetCondition(conds, c)[1..] == SetCondition(conds[1..], c);
    }
  }

  /** Setting the same condition twice is setting it once. */
  lemma {:induction false} SetConditionIdempotent(conds: seq<Condition>, c: Condition)
    ensures SetCondition(SetCondition(conds, c), c) == SetCondition(conds, c)
    decreases |conds|
  {
    if |conds| == 0 {
      assert SetCondition([c], c) == [Updated(c, c)] + [];
      assert Updated(c, c) == c;
    } else if conds[0].condType == c.condType {
      var u := Updated(conds[0], c);
      assert Updated(u, c) == u;
      assert SetCondition([u] + conds[1..], c) == [Updated(u, c)] + ([u] + conds[1..])[1..];
    } else {
      SetConditionIdempotent(conds[1..], c);
      var r := SetCondition(conds[1..], c);
      assert SetCondition([conds[0]] + r, c) == [conds[0]] + SetCondition(([conds[0]] + r)[1..], c);
      assert ([conds[0]] + r)[1..] == r;
    }
  }

  /** `controllerutil.AddFinalizer`: appended unless already present. */
  function WithFinalizer(fs: seq<string>, f: string): (r: seq<string>)
    ensures f in r && forall x :: x in r <==> x in fs || x == f
    ensures f in fs ==> r == fs
  {
    if f in fs then fs else fs + [f]
  }

  /** `controllerutil.RemoveFinalizer`: every occurrence of `f` dropped, the others kept in order. */
  function Without(fs: seq<string>, f: string): (r: seq<string>)
    ensures f !in r && forall x :: x in r <==> x in fs && x != f
    ensures f !in fs ==> r == fs
    ensures |r| <= |fs|
  {
    if |fs| == 0 then []
    else if fs[0] == f then Without(fs[1..], f)
    else [fs[0]] + Without(fs[1..], f)
  }

  /** Removing a finalizer that was just added gives back the list without it. */
  lemma AddThenRemove(fs: seq<string>, f: string)
    requires f !in fs
    ensures Without(WithFinalizer(fs, f), f) == fs
  {
    WithoutAppend(fs, [f], f);
    assert Without([f], f) == Without([f][1..], f);
  }

  lemma {:induction false} WithoutAppend(xs: seq<string>, ys: seq<string>, f: string)
    ensures Without(xs + ys, f) == Without(xs, f) + Without(ys, f)
    decreases |xs|
  {
    if |xs| == 0 {
      assert xs + ys == ys;
    } else {
      assert (xs + ys)[0] == xs[0] && (xs + ys)[1..] == xs[1..] + ys;
      WithoutAppend(xs[1..], ys, f);
    }
  }

  /** The replica counts the fetched Deployment reports: ready when some and all replicas are ready. */
  predicate DeploymentReady(replicas: int, readyReplicas: int) {
    readyReplicas > 0 && readyReplicas == replicas
  }

  /** The Ready condition `updateStatus` records for a Deployment it found. */
  function ReadyCondition(ready: bool, now: int): (c: Condition)
    ensures c.condType == ConditionReady && (c.status == ConditionTrue <==> ready)
  {
    if ready then Condition(ConditionReady, ConditionTrue, ReasonDeploymentReady, MessageDeploymentReady, now)
    else Condition(ConditionReady, ConditionFalse, ReasonDeploymentNotReady, MessageDeploymentNotReady, now)
  }

  /**
   * The status `updateStatus` writes, given whether the Deployment was found
   * and, if so, its replica counts.
   */
  function ObservedStatus(st: EdgeLakeOperatorStatus, found: bool, replicas: int, readyReplicas: int,
                          md: MetadataSpec, deploymentName: string, generation: int, now: int): (r: EdgeLakeOperatorStatus)
    ensures r.ready <==> found && DeploymentReady(replicas, readyReplicas)
    ensures r.phase == (if r.ready then PhaseRunning else PhaseCreating)
    ensures !found ==> r.conditions == st.conditions
    ensures r.deploymentName == deploymentName && r.serviceName == md.serviceName && r.configMapName == md.configMapName
    ensures r.observedGeneration == generation
  {
    var ready := found && DeploymentReady(replicas, readyReplicas);
    var conds := if found then SetCondition(st.conditions, ReadyCondition(ready, now)) else st.conditions;
    st.(phase := if ready then PhaseRunning else PhaseCreating, ready := ready, conditions := conds,
        deploymentName := deploymentName, serviceName := md.serviceName, configMapName := md.configMapName,
        observedGeneration := generation)
  }

  /**
   * A found Deployment: the Ready condition afterwards is True exactly when
   * the Deployment is ready, with the matching reason and message.
   */
  lemma ObservedReadyCondition(st: EdgeLakeOperatorStatus, replicas: int, readyReplicas: int,
                               md: MetadataSpec, deploymentName: string, generation: int, now: int)
    ensures var r := ObservedStatus(st, true, replicas, readyReplicas, md, deploymentName, generation, now);
      var c := FindCondition(r.conditions, ConditionReady);
      && c.Some?
      && (c.value.status == ConditionTrue <==> DeploymentReady(replicas, readyReplicas))
      && c.value.reason == (if DeploymentReady(replicas, readyReplicas) then ReasonDeploymentReady else ReasonDeploymentNotReady)
  {
    var ready := DeploymentReady(replicas, readyReplicas);
    SetConditionFinds(st.conditions, ReadyCondition(ready, now), ConditionReady);
  }

  /** The status `Reconcile` writes when reconciling the resources fails. */
  function FailedStatus(st: EdgeLakeOperatorStatus, message: string, now: int): (r: EdgeLakeOperatorStatus)
    ensures r.phase == PhaseFailed && r.ready == st.ready && r.observedGeneration == st.observedGeneration
  {
    st.(phase := PhaseFailed,
        conditions := SetCondition(st.conditions, Condition(ConditionReady, ConditionFalse, ReasonReconciliationFailed, message, now)))
  }

  /** After a failure the Ready condition is False, reason ReconciliationFailed, carrying the error's message. */
  lemma FailedCondition(st: EdgeLakeOperatorStatus, message: string, now: int)
    ensures var c := FindCondition(FailedStatus(st, message, now).conditions, ConditionReady);
      c.Some? && c.value.status == ConditionFalse && c.value.reason == ReasonReconciliationFailed && c.value.message == message
  {
    SetConditionFinds(st.conditions, Condition(ConditionReady, ConditionFalse, ReasonReconciliationFailed, message, now), ConditionReady);
  }
}
