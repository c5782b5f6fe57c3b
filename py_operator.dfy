/**
 * The kopf handlers of the Python operator: create, update, delete and the
 * periodic health check, plus the three diff classifiers that decide what an
 * update rebuilds. The handlers drive the API server of `PyKubernetes`; the
 * kopf `patch.status` object is a small class whose `phase` they set.
 *
 * The builders are pure, so each handler first builds the manifests it will
 * send, in the order the source builds and applies them, and then applies
 * them one by one until the first failure, which is what the source's
 * interleaved build-then-apply sequence amounts to.
 */
module PyOperator {
  import opened Common
  import opened PySpec
  import opened PyManifest
  import opened PyNames
  import opened PyStatus
  import opened PyValidation
  import opened PyConfigMap
  import opened PySecret
  import opened PyPvc
  import opened PyService
  import opened PyDeployment
  import opened PyKubernetes

  // ---------------------------------------------------------------------
  // Diff classifiers
  // ---------------------------------------------------------------------

  /** One entry of a kopf diff; only its path is read, already stringified. */
  datatype Edit = Edit(op: string, path: seq<string>)

  const PathSeparator := "."

  /** `".".join(str(p) for p in path)`. */
  function PathText(path: seq<string>): string {
    Join(path, PathSeparator)
  }

  const GeneralSegment := "general"
  const NetworkingSegment := "networking"
  const DatabaseSegment := "database"
  const BlockchainSegment := "blockchain"
  const OperatorSegment := "operator"
  const MqttSegment := "mqtt"
  const OpcuaSegment := "opcua"
  const EtheripSegment := "etherip"
  const MonitoringSegment := "monitoring"
  const AdvancedSegment := "advanced"
  const GeolocationSegment := "geolocation"
  const McpSegment := "mcp"
  const NebulaSegment := "nebula"
  const AggregationsSegment := "aggregations"
  const PasswordSegment := "password"
  const LicenseKeySegment := "licenseKey"
  const SpecSegment := "spec"
  const NosqlSegment := "nosql"

  /** The fourteen sections whose change rebuilds the ConfigMap and the Deployment. */
  const ConfigPaths: seq<string> := [
    GeneralSegment, NetworkingSegment, DatabaseSegment, BlockchainSegment, OperatorSegment,
    MqttSegment, OpcuaSegment, EtheripSegment, MonitoringSegment, AdvancedSegment,
    GeolocationSegment, McpSegment, NebulaSegment, AggregationsSegment]

  /** The fragments whose change rebuilds the Secret. */
  const SecretPaths: seq<string> := [PasswordSegment, LicenseKeySegment]

  /** The fragment whose change rebuilds the Service. */
  const NetworkingPaths: seq<string> := [NetworkingSegment]

  /** `any(p in path_str for p in needles)`: some needle is a substring of the joined path. */
  predicate Mentions(e: Edit, needles: seq<string>) {
    exists j | 0 <= j < |needles| :: Contains(PathText(e.path), needles[j])
  }

  /**
   * The loop of the classifiers: scan the diff in order and return true at the
   * first entry that mentions a needle, false when the diff is exhausted.
   */
  function AnyEditMentions(diff: seq<Edit>, needles: seq<string>): (b: bool)
    ensures b <==> exists i | 0 <= i < |diff| :: Mentions(diff[i], needles)
  {
    if |diff| == 0 then false
    else if Mentions(diff[0], needles) then true
    else
      var rest := AnyEditMentions(diff[1..], needles);
      assert forall i | 1 <= i < |diff| :: diff[i] == diff[1..][i - 1];
      rest
  }

  /** `_config_fields_changed`. */
  predicate ConfigFieldsChanged(diff: seq<Edit>) {
    AnyEditMentions(diff, ConfigPaths)
  }

  /** `_secrets_changed`. */
  predicate SecretsChanged(diff: seq<Edit>) {
    AnyEditMentions(diff, SecretPaths)
  }

  /** `_networking_changed`. */
  predicate NetworkingChanged(diff: seq<Edit>) {
    AnyEditMentions(diff, NetworkingPaths)
  }

  /** "networking" is itself one of the config sections, so a networking change is a config change. */
  lemma NetworkingChangeIsConfigChange(diff: seq<Edit>)
    ensures NetworkingChanged(diff) ==> ConfigFieldsChanged(diff)
  {
    if NetworkingChanged(diff) {
      var i :| 0 <= i < |diff| && Mentions(diff[i], NetworkingPaths);
      assert Contains(PathText(diff[i].path), ConfigPaths[1]);
      assert Mentions(diff[i], ConfigPaths);
    }
  }

  /**
   * An edit whose path has a config section as one segment and a secret
   * fragment as another (every credential field: `database.password`,
   * `database.nosql.password`, `mqtt.password`, `general.licenseKey`) makes
   * both classifiers fire.
   */
  lemma {:induction false} CredentialEditIsSecretAndConfigChange(diff: seq<Edit>, i: nat, a: nat, b: nat)
    requires i < |diff| && a < |diff[i].path| && b < |diff[i].path|
    requires diff[i].path[a] in ConfigPaths && diff[i].path[b] in SecretPaths
    ensures SecretsChanged(diff) && ConfigFieldsChanged(diff)
  {
    var path := diff[i].path;
    JoinContainsParts(path, PathSeparator, a);
    JoinContainsParts(path, PathSeparator, b);
    var ja :| 0 <= ja < |ConfigPaths| && ConfigPaths[ja] == path[a];
    var jb :| 0 <= jb < |SecretPaths| && SecretPaths[jb] == path[b];
    assert Mentions(diff[i], ConfigPaths);
    assert Mentions(diff[i], SecretPaths);
  }

  /** The four credential fields as kopf reports them, under `spec`. */
  const CredentialEditPaths: seq<seq<string>> := [
    [SpecSegment, DatabaseSegment, PasswordSegment],
    [SpecSegment, DatabaseSegment, NosqlSegment, PasswordSegment],
    [SpecSegment, MqttSegment, PasswordSegment],
    [SpecSegment, GeneralSegment, LicenseKeySegment]]

  /** Editing any credential field counts as both a secret change and a config change. */
  lemma CredentialFieldEdit(diff: seq<Edit>, i: nat)
    requires i < |diff| && diff[i].path in CredentialEditPaths
    ensures SecretsChanged(diff) && ConfigFieldsChanged(diff)
  {
    var path := diff[i].path;
    assert ConfigPaths[2] == DatabaseSegment && ConfigPaths[5] == MqttSegment && ConfigPaths[0] == GeneralSegment;
    assert SecretPaths[0] == PasswordSegment && SecretPaths[1] == LicenseKeySegment;
    if path == CredentialEditPaths[0] {
      CredentialEditIsSecretAndConfigChange(diff, i, 1, 2);
    } else if path == CredentialEditPaths[1] {
      CredentialEditIsSecretAndConfigChange(diff, i, 1, 3);
    } else if path == CredentialEditPaths[2] {
      CredentialEditIsSecretAndConfigChange(diff, i, 1, 2);
    } else {
      CredentialEditIsSecretAndConfigChange(diff, i, 1, 2);
    }
  }

  // ---------------------------------------------------------------------
  // What each handler sends
  // ---------------------------------------------------------------------

  /** One planned write: the kind and name of the object sent. */
  datatype Step = Step(kind: Kind, name: string)

  predicate Matches(m: Manifest, s: Step) {
    KindOf(m) == Some(s.kind) && m.meta.name == s.name
  }

  function PvcSteps(names: ResourceNames): (s: seq<Step>)
    ensures |s| == 4 && forall i | 0 <= i < 4 :: s[i] == Step(PvcKind, PvcNames(names)[i])
  {
    [Step(PvcKind, names.pvcAnylog), Step(PvcKind, names.pvcBlockchain),
     Step(PvcKind, names.pvcData), Step(PvcKind, names.pvcScripts)]
  }

  /** The Secret write, present when it is wanted and there are inline credentials. */
  function SecretSteps(wanted: bool, spec: EdgeLakeOperatorSpec, names: ResourceNames): seq<Step> {
    if wanted && HasInlineSecrets(spec) then [Step(SecretKind, names.secret)] else []
  }

  function ClaimSteps(spec: EdgeLakeOperatorSpec, names: ResourceNames): seq<Step> {
    if spec.persistence.enabled then PvcSteps(names) else []
  }

  /**
   * The writes of a create: the Secret when there are inline credentials,
   * the ConfigMap, the four claims when persistence is enabled, the Service
   * and last the Deployment.
   */
  function CreatePlan(spec: EdgeLakeOperatorSpec, names: ResourceNames): seq<Step> {
    SecretSteps(true, spec, names) + [Step(ConfigMapKind, names.configmap)] + ClaimSteps(spec, names)
    + [Step(ServiceKind, names.service), Step(DeploymentKind, names.deployment)]
  }

  /**
   * The writes of an update: the Secret when a secret field changed and there
   * are inline credentials, the ConfigMap followed by the Deployment when a
   * config section changed, and the Service when networking changed.
   */
  function UpdatePlan(spec: EdgeLakeOperatorSpec, names: ResourceNames, diff: seq<Edit>): seq<Step> {
    SecretSteps(SecretsChanged(diff), spec, names)
    + (if ConfigFieldsChanged(diff) then [Step(ConfigMapKind, names.configmap), Step(DeploymentKind, names.deployment)] else [])
    + (if NetworkingChanged(diff) then [Step(ServiceKind, names.service)] else [])
  }

  /**
   * Shape of a create: the Deployment is written last, after the Service,
   * the ConfigMap comes first unless the Secret precedes it, and the claims
   * sit between ConfigMap and Service.
   */
  lemma CreatePlanShape(spec: EdgeLakeOperatorSpec, names: ResourceNames)
    ensures var plan := CreatePlan(spec, names);
      var k := if HasInlineSecrets(spec) then 1 else 0;
      && |plan| == k + 3 + (if spec.persistence.enabled then 4 else 0)
      && (HasInlineSecrets(spec) <==> plan[0].kind == SecretKind)
      && plan[k] == Step(ConfigMapKind, names.configmap)
      && (forall i | k < i < |plan| - 2 :: plan[i].kind == PvcKind)
      && plan[|plan| - 2] == Step(ServiceKind, names.service)
      && plan[|plan| - 1] == Step(DeploymentKind, names.deployment)
  {
  }

  /** For derived names no object is written twice by a create. */
  lemma CreatePlanDistinct(name: string, spec: EdgeLakeOperatorSpec)
    ensures var plan := CreatePlan(spec, GenerateResourceNames(name));
      forall i, j | 0 <= i < j < |plan| :: plan[i] != plan[j]
  {
    var names := GenerateResourceNames(name);
    ResourceNamesDistinct(name);
    PvcNamesDistinct(name);
    var plan := CreatePlan(spec, names);
    forall i, j | 0 <= i < j < |plan|
      ensures plan[i] != plan[j]
    {
      assert names.deployment == AllNames(names)[0] && names.service == AllNames(names)[1];
      assert names.configmap == AllNames(names)[2] && names.secret == AllNames(names)[3];
    }
  }

  /**
   * An update that rewrites the Service also rewrites the ConfigMap and the
   * Deployment, and the Deployment is written right after the ConfigMap.
   */
  lemma UpdatePlanCoupling(spec: EdgeLakeOperatorSpec, names: ResourceNames, diff: seq<Edit>)
    ensures var plan := UpdatePlan(spec, names, diff);
      && (Step(ServiceKind, names.service) in plan ==> Step(ConfigMapKind, names.configmap) in plan)
      && (forall i | 0 <= i < |plan| && plan[i].kind == ConfigMapKind ::
            i + 1 < |plan| && plan[i + 1] == Step(DeploymentKind, names.deployment))
      && (forall i | 0 <= i < |plan| && plan[i].kind == DeploymentKind ::
            0 < i && plan[i - 1] == Step(ConfigMapKind, names.configmap))
  {
    NetworkingChangeIsConfigChange(diff);
  }

  /** A credential edit rebuilds the Secret (if inline), the ConfigMap and the Deployment. */
  lemma CredentialEditRebuilds(spec: EdgeLakeOperatorSpec, names: ResourceNames, diff: seq<Edit>, i: nat)
    requires i < |diff| && diff[i].path in CredentialEditPaths
    ensures var plan := UpdatePlan(spec, names, diff);
      && Step(ConfigMapKind, names.configmap) in plan && Step(DeploymentKind, names.deployment) in plan
      && (HasInlineSecrets(spec) <==> Step(SecretKind, names.secret) in plan)
  {
    CredentialFieldEdit(diff, i);
    var plan := UpdatePlan(spec, names, diff);
    var sec := SecretSteps(true, spec, names);
    var cfg := [Step(ConfigMapKind, names.configmap), Step(DeploymentKind, names.deployment)];
    var net := if NetworkingChanged(diff) then [Step(ServiceKind, names.service)] else [];
    assert plan == sec + cfg + net;
    assert plan[|sec|] == cfg[0] && plan[|sec| + 1] == cfg[1];
    if Step(SecretKind, names.secret) in plan {
      var j :| 0 <= j < |plan| && plan[j] == Step(SecretKind, names.secret);
      assert j < |sec|;
    }
  }

  /** The Deployment carries the config hash annotation exactly when the hash is non-empty. */
  predicate StampedWith(m: Manifest, configHash: string) {
    && m.Deployment?
    && (m.deployment.template.annotations.Some? <==> configHash != "")
    && (m.deployment.template.annotations.Some? ==>
          m.deployment.template.annotations.value == map[ConfigHashAnnotation := configHash])
  }

  /**
   * What every sent manifest must be, for the resource `name` with the
   * given spec: the object its builder returns for that spec, adopted unless
   * it is a claim that is retained on delete; the Deployment carries the
   * given config hash, and the claim sent for the i-th claim step is the
   * i-th built claim.
   */
  datatype Expect = Expect(
    retain: bool, name: string, ns: string, spec: EdgeLakeOperatorSpec, names: ResourceNames, configHash: string)

  predicate IsBuiltConfigMap(m: Manifest, x: Expect) {
    m == Adopt(BuildConfigMap(x.name, x.ns, x.spec, x.names))
  }

  /** Claim `i` as sent: adopted unless retained on delete. */
  function ClaimSent(x: Expect, i: nat): Manifest
    requires i < 4
  {
    var claim := ClaimOf(x.name, x.ns, x.spec, x.names, i);
    if x.retain then claim else Adopt(claim)
  }

  predicate IsBuiltClaim(m: Manifest, s: Step, x: Expect) {
    exists i | 0 <= i < 4 :: s == PvcSteps(x.names)[i] && m == ClaimSent(x, i)
  }

  predicate SentAs(m: Manifest, s: Step, x: Expect) {
    && Matches(m, s)
    && (m.meta.owned <==> !(m.Pvc? && x.retain))
    && (m.ConfigMap? ==> IsBuiltConfigMap(m, x))
    && (m.Secret? ==> SecretOf(x.name, x.ns, x.spec, x.names).Some? && m == Adopt(SecretOf(x.name, x.ns, x.spec, x.names).value))
    && (m.Service? ==> m == Adopt(ServiceOf(x.name, x.ns, x.spec, x.names)))
    && (m.Deployment? ==> m == Adopt(DeploymentOf(x.name, x.ns, x.spec, x.names, Some(x.configHash))))
    && (m.Deployment? ==> StampedWith(m, x.configHash))
    && (m.Pvc? ==> IsBuiltClaim(m, s, x))
  }

  /** `ms` is exactly the planned sequence of writes, each as expected. */
  predicate Sent(ms: seq<Manifest>, plan: seq<Step>, x: Expect) {
    |ms| == |plan| && forall i | 0 <= i < |ms| :: SentAs(ms[i], plan[i], x)
  }

  lemma SentConcat(a: seq<Manifest>, p: seq<Step>, b: seq<Manifest>, q: seq<Step>, x: Expect)
    requires Sent(a, p, x) && Sent(b, q, x)
    ensures Sent(a + b, p + q, x)
  {
    forall i | 0 <= i < |a| + |b|
      ensures SentAs((a + b)[i], (p + q)[i], x)
    {
      if i < |a| {
        assert (a + b)[i] == a[i] && (p + q)[i] == p[i];
      } else {
        assert (a + b)[i] == b[i - |a|] && (p + q)[i] == q[i - |a|];
      }
    }
  }

  /** For derived names a claim step names one claim only, so the claim sent for step i is claim i. */
  lemma BuiltClaimAtSlot(m: Manifest, x: Expect, i: nat)
    requires i < 4 && x.names == GenerateResourceNames(x.name)
    requires IsBuiltClaim(m, PvcSteps(x.names)[i], x)
    ensures m == ClaimSent(x, i)
  {
    PvcNamesDistinct(x.name);
    var j :| 0 <= j < 4 && PvcSteps(x.names)[i] == PvcSteps(x.names)[j] && m == ClaimSent(x, j);
    assert PvcNames(x.names)[i] == PvcNames(x.names)[j];
  }

  /**
   * A create with persistence enabled and derived names sends the four built
   * claims, in the order `build_pvcs` returns them, right after the ConfigMap.
   */
  lemma CreateSendsBuiltClaims(ms: seq<Manifest>, x: Expect)
    requires x.names == GenerateResourceNames(x.name) && x.spec.persistence.enabled
    requires Sent(ms, CreatePlan(x.spec, x.names), x)
    ensures var k := if HasInlineSecrets(x.spec) then 1 else 0;
      forall i | 0 <= i < 4 :: ms[k + 1 + i] == ClaimSent(x, i)
  {
    var k := if HasInlineSecrets(x.spec) then 1 else 0;
    var plan := CreatePlan(x.spec, x.names);
    var pre := SecretSteps(true, x.spec, x.names) + [Step(ConfigMapKind, x.names.configmap)];
    assert |pre| == k + 1;
    assert plan == pre + PvcSteps(x.names) + [Step(ServiceKind, x.names.service), Step(DeploymentKind, x.names.deployment)];
    forall i | 0 <= i < 4
      ensures ms[k + 1 + i] == ClaimSent(x, i)
    {
      assert plan[k + 1 + i] == PvcSteps(x.names)[i];
      assert SentAs(ms[k + 1 + i], plan[k + 1 + i], x);
      BuiltClaimAtSlot(ms[k + 1 + i], x, i);
    }
  }

  /** The Secret, adopted, when it is wanted and there are inline credentials. */
  method SecretPart(x: Expect, wanted: bool) returns (part: seq<Manifest>)
    ensures Sent(part, SecretSteps(wanted, x.spec, x.names), x)
  {
    part := [];
    if wanted && HasInlineSecrets(x.spec) {
      var secret := BuildSecret(x.name, x.ns, x.spec, x.names);
      if secret.Some? {
        part := [Adopt(secret.value)];
      }
    }
  }

  /** The ConfigMap, adopted. */
  method ConfigMapPart(x: Expect) returns (part: seq<Manifest>)
    ensures Sent(part, [Step(ConfigMapKind, x.names.configmap)], x)
  {
    part := [Adopt(BuildConfigMap(x.name, x.ns, x.spec, x.names))];
  }

  /** The Service, adopted. */
  method ServicePart(x: Expect) returns (part: seq<Manifest>)
    ensures Sent(part, [Step(ServiceKind, x.names.service)], x)
  {
    var service := BuildService(x.name, x.ns, x.spec, x.names);
    part := [Adopt(service)];
  }

  /** The Deployment with the config hash, adopted. */
  method DeploymentPart(x: Expect) returns (part: seq<Manifest>)
    ensures Sent(part, [Step(DeploymentKind, x.names.deployment)], x)
  {
    var deployment := BuildDeployment(x.name, x.ns, x.spec, x.names, Some(x.configHash));
    part := [Adopt(deployment)];
  }

  /** The four claims, each adopted unless retained, are sent as the claim steps plan. */
  lemma ClaimsSentAs(part: seq<Manifest>, x: Expect)
    requires |part| == 4 && forall j | 0 <= j < 4 :: part[j] == ClaimSent(x, j)
    ensures Sent(part, PvcSteps(x.names), x)
  {
    forall j | 0 <= j < 4
      ensures SentAs(part[j], PvcSteps(x.names)[j], x)
    {
      assert IsBuiltClaim(part[j], PvcSteps(x.names)[j], x);
    }
  }

  /**
   * The claims of a create: each adopted unless retained on delete, and
   * the names of the claims sent, which end up in the status.
   */
  method ClaimPart(x: Expect) returns (part: seq<Manifest>, pvcNames: seq<string>)
    requires x.retain == x.spec.persistence.retainOnDelete
    ensures Sent(part, ClaimSteps(x.spec, x.names), x)
    ensures pvcNames == if x.spec.persistence.enabled then PvcNames(x.names) else []
  {
    part, pvcNames := [], [];
    if x.spec.persistence.enabled {
      var pvcs := BuildPvcs(x.name, x.ns, x.spec, x.names);
      var i := 0;
      while i < |pvcs|
        invariant 0 <= i <= |pvcs| == 4
        invariant |part| == i && pvcNames == PvcNames(x.names)[..i]
        invariant forall j | 0 <= j < i :: part[j] == ClaimSent(x, j)
      {
        var claim := pvcs[i];
        if !x.spec.persistence.retainOnDelete {
          claim := Adopt(claim);
        }
        part := part + [claim];
        pvcNames := pvcNames + [claim.meta.name];
        assert PvcNames(x.names)[..i + 1] == PvcNames(x.names)[..i] + [PvcNames(x.names)[i]];
        i := i + 1;
      }
      ClaimsSentAs(part, x);
    }
  }

  /** The manifests the create handler sends, in order, and the claim names it records. */
  method CreateManifests(x: Expect) returns (ms: seq<Manifest>, pvcNames: seq<string>)
    requires x.retain == x.spec.persistence.retainOnDelete
    ensures Sent(ms, CreatePlan(x.spec, x.names), x)
    ensures pvcNames == if x.spec.persistence.enabled then PvcNames(x.names) else []
  {
    var secret := SecretPart(x, true);
    var configMap := ConfigMapPart(x);
    var claims;
    claims, pvcNames := ClaimPart(x);
    var service := ServicePart(x);
    var deployment := DeploymentPart(x);
    ghost var names := x.names;
    ghost var s1, s2, s3 := SecretSteps(true, x.spec, names), [Step(ConfigMapKind, names.configmap)], ClaimSteps(x.spec, names);
    ghost var s4 := [Step(ServiceKind, names.service), Step(DeploymentKind, names.deployment)];
    SentConcat(secret, s1, configMap, s2, x);
    SentConcat(secret + configMap, s1 + s2, claims, s3, x);
    SentConcat(service, [s4[0]], deployment, [s4[1]], x);
    assert [s4[0]] + [s4[1]] == s4;
    SentConcat(secret + configMap + claims, s1 + s2 + s3, service + deployment, s4, x);
    ms := secret + configMap + claims + (service + deployment);
  }

  /** The manifests the update handler sends, in order. */
  method UpdateManifests(x: Expect, diff: seq<Edit>) returns (ms: seq<Manifest>)
    ensures Sent(ms, UpdatePlan(x.spec, x.names, diff), x)
  {
    var configChanged := ConfigFieldsChanged(diff);
    var secretsChanged := SecretsChanged(diff);
    var secret := SecretPart(x, secretsChanged);
    var rebuilt: seq<Manifest> := [];
    ghost var cfg: seq<Step> := [];
    if configChanged {
      var configMap := ConfigMapPart(x);
      var deployment := DeploymentPart(x);
      SentConcat(configMap, [Step(ConfigMapKind, x.names.configmap)], deployment, [Step(DeploymentKind, x.names.deployment)], x);
      rebuilt := configMap + deployment;
      cfg := [Step(ConfigMapKind, x.names.configmap), Step(DeploymentKind, x.names.deployment)];
    }
    var exposed: seq<Manifest> := [];
    ghost var net: seq<Step> := [];
    if NetworkingChanged(diff) {
      exposed := ServicePart(x);
      net := [Step(ServiceKind, x.names.service)];
    }
    SentConcat(secret, SecretSteps(secretsChanged, x.spec, x.names), rebuilt, cfg, x);
    SentConcat(secret + rebuilt, SecretSteps(secretsChanged, x.spec, x.names) + cfg, exposed, net, x);
    ms := secret + rebuilt + exposed;
  }

  // ---------------------------------------------------------------------
  // Applying in order
  // ---------------------------------------------------------------------

  /**
   * The effect of `await apply_resource(m, ns)` for each manifest in turn:
   * the first failure stops the sequence and is reported, with the writes
   * before it kept.
   */
  function ApplyAll(c: Cluster, ms: seq<Manifest>, ns: string): (Option<Failure>, Cluster)
    decreases |ms|
  {
    if |ms| == 0 then (None, c)
    else
      var (r, c1) := ApplyOn(c, ms[0], ns);
      if r.Fail? then (Some(r.failure), c1) else ApplyAll(c1, ms[1..], ns)
  }

  function KeyOf(m: Manifest, ns: string): ObjectKey
    requires !m.Unsupported?
  {
    ObjectKey(KindOf(m).value, ns, m.meta.name)
  }

  /**
   * Applying a sequence only touches the keys of its manifests, never
   * removes an object, and after a complete run every manifest's object is
   * stored; a failure is an injected fault of one of those keys.
   */
  lemma {:induction false} ApplyAllEffect(c: Cluster, ms: seq<Manifest>, ns: string)
    requires forall i | 0 <= i < |ms| :: !ms[i].Unsupported?
    decreases |ms|
    ensures var (f, c') := ApplyAll(c, ms, ns);
      && (forall k | k in c.store :: k in c'.store)
      && (forall k | k in c.store && (forall i | 0 <= i < |ms| :: k != KeyOf(ms[i], ns)) :: c'.store[k] == c.store[k])
      && (forall k | k in c'.store && k !in c.store :: exists i | 0 <= i < |ms| :: k == KeyOf(ms[i], ns))
      && c'.faults == c.faults && c'.readyReplicas == c.readyReplicas
      && (f.None? ==> forall i | 0 <= i < |ms| :: KeyOf(ms[i], ns) in c'.store)
      && (f.Some? ==> exists i | 0 <= i < |ms| :: KeyOf(ms[i], ns) in c.faults && f.value == ApiError(c.faults[KeyOf(ms[i], ns)]))
  {
    if |ms| > 0 {
      var m := ms[0];
      var (r, c1) := ApplyOn(c, m, ns);
      ApplyFailsOnlyOn(c, m, ns);
      if r.Ok? {
        ApplyStores(c, m, ns);
        var tail := ms[1..];
        assert forall i | 0 <= i < |tail| :: tail[i] == ms[i + 1];
        ApplyAllEffect(c1, tail, ns);
      }
    }
  }

  /** `await apply_resource` for each manifest, stopping at the first failure. */
  method ApplyInOrder(api: ApiServer, ms: seq<Manifest>, ns: string) returns (failure: Option<Failure>)
    requires api.Valid()
    modifies api
    ensures api.Valid() && (failure, api.State()) == ApplyAll(old(api.State()), ms, ns)
  {
    var i := 0;
    while i < |ms|
      invariant 0 <= i <= |ms| && api.Valid()
      invariant ApplyAll(old(api.State()), ms, ns) == ApplyAll(api.State(), ms[i..], ns)
    {
      assert ms[i..][1..] == ms[i + 1..];
      var r := ApplyResource(api, ms[i], ns);
      if r.Fail? {
        return Some(r.failure);
      }
      i := i + 1;
    }
    failure := None;
  }

  // ---------------------------------------------------------------------
  // Handlers
  // ---------------------------------------------------------------------

  /** The `patch.status` of a handler invocation; only `phase` is written. */
  class StatusPatch {
    var phase: Option<string>

    constructor()
      ensures phase.None?
    {
      phase := None;
    }
  }

  /** `EdgeLakeOperatorSpec.from_dict(spec)`: a parsed spec or the parse error. */
  datatype SpecInput = Parsed(spec: EdgeLakeOperatorSpec) | Malformed(reason: string)

  /** The exception behind a `TemporaryError`. */
  datatype Cause = InvalidSpec(reason: string) | ApplyFailed(failure: Failure)

  /** A handler's return value or the kopf error it raises. */
  datatype Outcome<T> = Done(status: T) | PermanentError(message: string) | TemporaryError(cause: Cause, delay: int)

  const RetryDelay := 30
  const ValidationFailedPrefix := "Validation failed: "
  const ErrorSeparator := "; "

  /** `f"Validation failed: {'; '.join(errors)}"`. */
  function ValidationMessage(errors: seq<string>): string {
    ValidationFailedPrefix + Join(errors, ErrorSeparator)
  }

  /** Every validation error is spelled out in the permanent error message. */
  lemma ValidationMessageNamesEveryError(errors: seq<string>, k: nat)
    requires k < |errors|
    ensures Contains(ValidationMessage(errors), errors[k])
  {
    JoinContainsParts(errors, ErrorSeparator, k);
    ContainsExtended(ValidationFailedPrefix, Join(errors, ErrorSeparator), "", errors[k]);
    assert ValidationFailedPrefix + Join(errors, ErrorSeparator) + "" == ValidationMessage(errors);
  }

  /** `body["metadata"].get("generation", 1)`. */
  function GenerationOr1(generation: Option<int>): int {
    if generation.Some? then generation.value else 1
  }

  /** The status dictionary the create handler returns. */
  datatype CreatedStatus = CreatedStatus(
    phase: string, deploymentName: string, serviceName: string, configMapName: string,
    secretName: Option<string>, pvcNames: seq<string>, endpoints: Endpoints, observedGeneration: int)

  /** The status dictionary the update handler returns. */
  datatype UpdatedStatus = UpdatedStatus(phase: string, observedGeneration: int, endpoints: Endpoints)

  /** The status the create handler reports once every write went through. */
  function CreatedStatusOf(ns: string, spec: EdgeLakeOperatorSpec, names: ResourceNames, generation: Option<int>): CreatedStatus {
    CreatedStatus(PhaseValue(Running), names.deployment, names.service, names.configmap,
      if HasInlineSecrets(spec) then Some(names.secret) else None,
      if spec.persistence.enabled then PvcNames(names) else [],
      BuildEndpoints(spec, ns, names), GenerationOr1(generation))
  }

  /**
   * `create_edgelake_operator`. The phase is set to Creating first. A spec
   * that does not parse ends in a retried error with phase Failed; a spec
   * that fails validation ends in a permanent error listing every problem,
   * with nothing written and the phase left at Creating; otherwise the
   * planned writes are applied in order, and the first failure sets the phase
   * to Failed and asks for a retry after 30 seconds.
   */
  method CreateHandler(api: ApiServer, patch: StatusPatch, name: string, ns: string, input: SpecInput,
                       configHash: string, generation: Option<int>)
    returns (outcome: Outcome<CreatedStatus>, ghost sent: seq<Manifest>)
    requires api.Valid()
    modifies api, patch
    ensures api.Valid()
    ensures input.Malformed? ==>
      && outcome == TemporaryError(InvalidSpec(input.reason), RetryDelay)
      && patch.phase == Some(PhaseValue(Failed)) && api.State() == old(api.State())
    ensures input.Parsed? && ValidationErrors(input.spec) != [] ==>
      && outcome == PermanentError(ValidationMessage(ValidationErrors(input.spec)))
      && patch.phase == Some(PhaseValue(Creating)) && api.State() == old(api.State())
    ensures input.Parsed? && ValidationErrors(input.spec) == [] ==>
      var names := GenerateResourceNames(name);
      var (f, c') := ApplyAll(old(api.State()), sent, ns);
      && Sent(sent, CreatePlan(input.spec, names), Expect(input.spec.persistence.retainOnDelete, name, ns, input.spec, names, configHash))
      && api.State() == c'
      && (f.None? ==> outcome == Done(CreatedStatusOf(ns, input.spec, names, generation)) && patch.phase == Some(PhaseValue(Creating)))
      && (f.Some? ==> outcome == TemporaryError(ApplyFailed(f.value), RetryDelay) && patch.phase == Some(PhaseValue(Failed)))
  {
    patch.phase := Some(PhaseValue(Creating));
    sent := [];
    if input.Malformed? {
      patch.phase := Some(PhaseValue(Failed));
      return TemporaryError(InvalidSpec(input.reason), RetryDelay), sent;
    }
    var spec := input.spec;
    var errors := ValidateSpec(spec);
    if errors != [] {
      return PermanentError(ValidationMessage(errors)), sent;
    }
    var names := GenerateResourceNames(name);
    var ms, pvcNames := CreateManifests(Expect(spec.persistence.retainOnDelete, name, ns, spec, names, configHash));
    sent := ms;
    var failure := ApplyInOrder(api, ms, ns);
    if failure.Some? {
      patch.phase := Some(PhaseValue(Failed));
      return TemporaryError(ApplyFailed(failure.value), RetryDelay), sent;
    }
    var secretName := if HasInlineSecrets(spec) then Some(names.secret) else None;
    outcome := Done(CreatedStatus(PhaseValue(Running), names.deployment, names.service, names.configmap,
      secretName, pvcNames, BuildEndpoints(spec, ns, names), GenerationOr1(generation)));
  }

  /**
   * `update_edgelake_operator`: the same error handling as create with phase
   * Updating, and only the writes the diff calls for.
   */
  method UpdateHandler(api: ApiServer, patch: StatusPatch, name: string, ns: string, input: SpecInput,
                       diff: seq<Edit>, configHash: string, generation: Option<int>)
    returns (outcome: Outcome<UpdatedStatus>, ghost sent: seq<Manifest>)
    requires api.Valid()
    modifies api, patch
    ensures api.Valid()
    ensures input.Malformed? ==>
      && outcome == TemporaryError(InvalidSpec(input.reason), RetryDelay)
      && patch.phase == Some(PhaseValue(Failed)) && api.State() == old(api.State())
    ensures input.Parsed? && ValidationErrors(input.spec) != [] ==>
      && outcome == PermanentError(ValidationMessage(ValidationErrors(input.spec)))
      && patch.phase == Some(PhaseValue(Updating)) && api.State() == old(api.State())
    ensures input.Parsed? && ValidationErrors(input.spec) == [] ==>
      var names := GenerateResourceNames(name);
      var (f, c') := ApplyAll(old(api.State()), sent, ns);
      && Sent(sent, UpdatePlan(input.spec, names, diff), Expect(false, name, ns, input.spec, names, configHash))
      && api.State() == c'
      && (f.None? ==> outcome == Done(UpdatedStatus(PhaseValue(Running), GenerationOr1(generation), BuildEndpoints(input.spec, ns, names)))
                      && patch.phase == Some(PhaseValue(Updating)))
      && (f.Some? ==> outcome == TemporaryError(ApplyFailed(f.value), RetryDelay) && patch.phase == Some(PhaseValue(Failed)))
  {
    patch.phase := Some(PhaseValue(Updating));
    sent := [];
    if input.Malformed? {
      patch.phase := Some(PhaseValue(Failed));
      return TemporaryError(InvalidSpec(input.reason), RetryDelay), sent;
    }
    var spec := input.spec;
    var errors := ValidateSpec(spec);
    if errors != [] {
      return PermanentError(ValidationMessage(errors)), sent;
    }
    var names := GenerateResourceNames(name);
    var ms := UpdateManifests(Expect(false, name, ns, spec, names, configHash), diff);
    sent := ms;
    var failure := ApplyInOrder(api, ms, ns);
    if failure.Some? {
      patch.phase := Some(PhaseValue(Failed));
      return TemporaryError(ApplyFailed(failure.value), RetryDelay), sent;
    }
    outcome := Done(UpdatedStatus(PhaseValue(Running), GenerationOr1(generation), BuildEndpoints(spec, ns, names)));
  }

  /** `persistence.get("retainOnDelete", True)`: an absent flag retains. */
  function RetainFlag(retainOnDelete: Option<bool>): bool {
    if retainOnDelete.Some? then retainOnDelete.value else true
  }

  /** `status.get("pvcNames", [])`. */
  function ClaimNamesOr(pvcNames: Option<seq<string>>): seq<string> {
    if pvcNames.Some? then pvcNames.value else []
  }

  /** `delete_resource` of each named claim in turn, failures ignored. */
  function DeleteClaims(c: Cluster, claimNames: seq<string>, ns: string): Cluster
    decreases |claimNames|
  {
    if |claimNames| == 0 then c
    else DeleteClaims(DeleteOn(c, KindName(PvcKind), claimNames[0], ns).1, claimNames[1..], ns)
  }

  /**
   * Deleting the claims removes every named claim that has no injected
   * fault, keeps a faulted one as it was, and leaves every other object,
   * the revision, the faults and the readiness alone.
   */
  lemma {:induction false} DeleteClaimsEffect(c: Cluster, claimNames: seq<string>, ns: string)
    ensures var c' := DeleteClaims(c, claimNames, ns);
      && (forall n | n in claimNames && ObjectKey(PvcKind, ns, n) !in c.faults :: ObjectKey(PvcKind, ns, n) !in c'.store)
      && (forall k | k in c.faults :: (k in c'.store <==> k in c.store) && (k in c.store ==> c'.store[k] == c.store[k]))
      && (forall k: ObjectKey | !(k.kind == PvcKind && k.namespace == ns && k.name in claimNames) ::
            (k in c'.store <==> k in c.store) && (k in c.store ==> c'.store[k] == c.store[k]))
      && c'.faults == c.faults && c'.readyReplicas == c.readyReplicas && c'.revision == c.revision
    decreases |claimNames|
  {
    if |claimNames| > 0 {
      assert ParseKind(KindName(PvcKind)) == Some(PvcKind);
      var c1 := DeleteOn(c, KindName(PvcKind), claimNames[0], ns).1;
      var key := ObjectKey(PvcKind, ns, claimNames[0]);
      assert c1 == c || (key !in c.faults && c1 == c.(store := c.store - {key}));
      DeleteClaimsEffect(c1, claimNames[1..], ns);
      assert forall n | n in claimNames :: n == claimNames[0] || n in claimNames[1..];
    }
  }

  /**
   * `delete_edgelake_operator`: unless the resource retains its claims
   * (the default), delete each claim named in the status, ignoring
   * failures. Everything else is left to garbage collection.
   */
  method DeleteHandler(api: ApiServer, name: string, ns: string, retainOnDelete: Option<bool>, pvcNames: Option<seq<string>>)
    requires api.Valid()
    modifies api
    ensures api.Valid()
    ensures api.State() == if RetainFlag(retainOnDelete) then old(api.State())
                           else DeleteClaims(old(api.State()), ClaimNamesOr(pvcNames), ns)
  {
    var retain := RetainFlag(retainOnDelete);
    if !retain {
      var claimNames := ClaimNamesOr(pvcNames);
      var i := 0;
      while i < |claimNames|
        invariant 0 <= i <= |claimNames| && api.Valid()
        invariant DeleteClaims(old(api.State()), claimNames, ns) == DeleteClaims(api.State(), claimNames[i..], ns)
      {
        assert claimNames[i..][1..] == claimNames[i + 1..];
        var _ := DeleteResource(api, KindName(PvcKind), claimNames[i], ns);
        i := i + 1;
      }
    }
  }

  /**
   * `monitor_edgelake_operator`: only a Running resource with a non-empty
   * deployment name is checked, and the readiness probe only reads the server. The
   * result is the readiness it would log, `None` when nothing was checked.
   */
  method MonitorHandler(api: ApiServer, ns: string, phase: Option<string>, deploymentName: Option<string>)
    returns (readiness: Option<bool>)
    ensures readiness.Some? <==> phase == Some(PhaseValue(Running)) && TruthyStr(deploymentName)
    ensures readiness.Some? ==> readiness.value == DeploymentReady(api.State(), deploymentName.value, ns)
  {
    if phase != Some(PhaseValue(Running)) {
      return None;
    }
    if TruthyStr(deploymentName) {
      var ready := CheckDeploymentReady(api, deploymentName.value, ns);
      return Some(ready);
    }
    return None;
  }
}
