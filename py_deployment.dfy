/**
 * `build_deployment`, `_build_volumes` and `_build_secret_env_vars` of the
 * Python operator: the single-replica Deployment running the EdgeLake node,
 * its four volumes and the environment variables that read credentials from
 * Secrets.
 */
module PyDeployment {
  import opened Common
  import opened PySpec
  import opened PyManifest
  import opened PyNames
  import opened PyPvc
  import opened PySecret

  const ConfigHashAnnotation := "edgelake.io/config-hash"

  /** The four volume names, shared by the mounts and the volumes. */
  const VolumeNames: seq<string> := ["anylog-volume", "blockchain-volume", "data-volume", "scripts-volume"]

  /** The container's mounts: always the four fixed paths. */
  const VolumeMounts: seq<VolumeMount> := [
    VolumeMount("anylog-volume", VolumeMountAnylog),
    VolumeMount("blockchain-volume", VolumeMountBlockchain),
    VolumeMount("data-volume", VolumeMountData),
    VolumeMount("scripts-volume", VolumeMountScripts)
  ]

  /**
   * `_build_volumes`: the four volumes, backed by the four claims when
   * persistence is enabled and by empty directories otherwise.
   */
  function BuildVolumes(spec: EdgeLakeOperatorSpec, names: ResourceNames): (vs: seq<Volume>)
    ensures |vs| == 4
    ensures forall i | 0 <= i < 4 :: vs[i].name == VolumeNames[i] == VolumeMounts[i].name
    ensures forall i | 0 <= i < 4 :: vs[i].source.ClaimVolume? <==> spec.persistence.enabled
    ensures forall i | 0 <= i < 4 :: vs[i].source.ClaimVolume? ==> vs[i].source.claimName == PvcNames(names)[i]
  {
    if spec.persistence.enabled then
      [Volume("anylog-volume", ClaimVolume(names.pvcAnylog)),
       Volume("blockchain-volume", ClaimVolume(names.pvcBlockchain)),
       Volume("data-volume", ClaimVolume(names.pvcData)),
       Volume("scripts-volume", ClaimVolume(names.pvcScripts))]
    else
      [Volume("anylog-volume", EmptyDirVolume), Volume("blockchain-volume", EmptyDirVolume),
       Volume("data-volume", EmptyDirVolume), Volume("scripts-volume", EmptyDirVolume)]
  }

  /** Every claim a volume mounts is one of the claims `build_pvcs` creates for the same spec. */
  lemma VolumesUseBuiltClaims(spec: EdgeLakeOperatorSpec, names: ResourceNames, i: nat)
    requires i < 4 && BuildVolumes(spec, names)[i].source.ClaimVolume?
    ensures spec.persistence.enabled
    ensures BuildVolumes(spec, names)[i].source.claimName == PvcNames(names)[i]
  {
  }

  /** The variable each credential is exposed as. */
  function CredentialVar(k: SecretKey): (key: EnvKey)
    ensures IsCredentialKey(key)
  {
    match k
    case DbPassword => Db(DB_PASSWD)
    case NosqlPassword => NoSql(NOSQL_PASSWD)
    case MqttPassword => Mqtt(MQTT_PASSWD)
    case LicenseKey => General(LICENSE_KEY)
  }

  lemma CredentialVarInjective(k: SecretKey, l: SecretKey)
    requires CredentialVar(k) == CredentialVar(l)
    ensures k == l
  {
  }

  /**
   * The precedence rule for one credential: an external reference wins; else
   * an inline value reads key `k` of the generated Secret; else no variable.
   */
  function CredentialEnv(spec: EdgeLakeOperatorSpec, names: ResourceNames, k: SecretKey): Option<EnvVar> {
    var c := CredentialOf(spec, k);
    if c.ref.Some? then Some(EnvVar(CredentialVar(k), c.ref.value.name, c.ref.value.key))
    else if TruthyStr(c.inline) then Some(EnvVar(CredentialVar(k), names.secret, SecretKeyName(k)))
    else None
  }

  /** The entry credential `k` contributes: none or one, named after the credential. */
  function CredentialEnvList(spec: EdgeLakeOperatorSpec, names: ResourceNames, k: SecretKey): (s: seq<EnvVar>)
    ensures |s| <= 1
    ensures |s| == 1 <==> CredentialEnv(spec, names, k).Some?
    ensures forall e | e in s :: Some(e) == CredentialEnv(spec, names, k) && e.name == CredentialVar(k)
  {
    match CredentialEnv(spec, names, k)
    case None => []
    case Some(e) => [e]
  }

  /** The credential variables in the order `_build_secret_env_vars` visits them. */
  function SecretEnv(spec: EdgeLakeOperatorSpec, names: ResourceNames): seq<EnvVar> {
    CredentialEnvList(spec, names, DbPassword) + CredentialEnvList(spec, names, NosqlPassword)
      + CredentialEnvList(spec, names, MqttPassword) + CredentialEnvList(spec, names, LicenseKey)
  }

  /** One `if ref: append(...) elif value: append(...)` step. */
  method AppendCredentialEnv(env: seq<EnvVar>, spec: EdgeLakeOperatorSpec, names: ResourceNames, k: SecretKey)
    returns (env': seq<EnvVar>)
    ensures env' == env + CredentialEnvList(spec, names, k)
  {
    var c := CredentialOf(spec, k);
    env' := env;
    if c.ref.Some? {
      env' := env' + [EnvVar(CredentialVar(k), c.ref.value.name, c.ref.value.key)];
    } else if TruthyStr(c.inline) {
      env' := env' + [EnvVar(CredentialVar(k), names.secret, SecretKeyName(k))];
    }
  }

  /** `_build_secret_env_vars`: the list built by four conditional appends. */
  method BuildSecretEnvVars(spec: EdgeLakeOperatorSpec, names: ResourceNames) returns (env: seq<EnvVar>)
    ensures env == SecretEnv(spec, names)
  {
    env := [];
    env := AppendCredentialEnv(env, spec, names, DbPassword);
    assert env == CredentialEnvList(spec, names, DbPassword);
    env := AppendCredentialEnv(env, spec, names, NosqlPassword);
    env := AppendCredentialEnv(env, spec, names, MqttPassword);
    env := AppendCredentialEnv(env, spec, names, LicenseKey);
  }

  /** Every variable of the list carries a credential and comes from the precedence rule of its own credential. */
  lemma SecretEnvSound(spec: EdgeLakeOperatorSpec, names: ResourceNames)
    ensures |SecretEnv(spec, names)| <= 4
    ensures forall e | e in SecretEnv(spec, names) :: IsCredentialKey(e.name)
    ensures forall e | e in SecretEnv(spec, names) :: exists k: SecretKey :: CredentialEnv(spec, names, k) == Some(e)
  {
    forall e | e in SecretEnv(spec, names)
      ensures IsCredentialKey(e.name) && exists k: SecretKey :: CredentialEnv(spec, names, k) == Some(e)
    {
      if e in CredentialEnvList(spec, names, DbPassword) {
        assert CredentialEnv(spec, names, DbPassword) == Some(e);
      } else if e in CredentialEnvList(spec, names, NosqlPassword) {
        assert CredentialEnv(spec, names, NosqlPassword) == Some(e);
      } else if e in CredentialEnvList(spec, names, MqttPassword) {
        assert CredentialEnv(spec, names, MqttPassword) == Some(e);
      } else {
        assert CredentialEnv(spec, names, LicenseKey) == Some(e);
      }
    }
  }

  /** A credential has a variable exactly when it has a reference or an inline value, and then it is in the list. */
  lemma SecretEnvComplete(spec: EdgeLakeOperatorSpec, names: ResourceNames, k: SecretKey)
    ensures CredentialEnv(spec, names, k).Some? <==> (CredentialOf(spec, k).ref.Some? || TruthyStr(CredentialOf(spec, k).inline))
    ensures CredentialEnv(spec, names, k).Some? ==> CredentialEnv(spec, names, k).value in SecretEnv(spec, names)
  {
    if CredentialEnv(spec, names, k).Some? {
      assert CredentialEnvList(spec, names, k)[0] == CredentialEnv(spec, names, k).value;
    }
  }

  /** The order rank of a credential variable in the list. */
  function CredentialRank(key: EnvKey): int {
    match key
    case Db(_) => 0
    case NoSql(_) => 1
    case Mqtt(_) => 2
    case _ => 3
  }

  predicate StrictlyRanked(s: seq<EnvVar>) {
    forall i, j | 0 <= i < j < |s| :: CredentialRank(s[i].name) < CredentialRank(s[j].name)
  }

  lemma RankedConcat(a: seq<EnvVar>, b: seq<EnvVar>, r: int)
    requires StrictlyRanked(a) && StrictlyRanked(b)
    requires forall e | e in a :: CredentialRank(e.name) < r
    requires forall e | e in b :: CredentialRank(e.name) >= r
    ensures StrictlyRanked(a + b)
  {
    var ab := a + b;
    forall i, j | 0 <= i < j < |ab|
      ensures CredentialRank(ab[i].name) < CredentialRank(ab[j].name)
    {
      if j < |a| {
        assert ab[i] == a[i] && ab[j] == a[j];
      } else if i >= |a| {
        assert ab[i] == b[i - |a|] && ab[j] == b[j - |a|];
      } else {
        assert ab[i] == a[i] && ab[j] == b[j - |a|];
        assert a[i] in a && b[j - |a|] in b;
      }
    }
  }

  /** One credential's part of the list is ranked, all at the rank of its variable. */
  lemma PartRanked(spec: EdgeLakeOperatorSpec, names: ResourceNames, k: SecretKey)
    ensures StrictlyRanked(CredentialEnvList(spec, names, k))
    ensures forall e | e in CredentialEnvList(spec, names, k) :: CredentialRank(e.name) == CredentialRank(CredentialVar(k))
  {
  }

  /** Four parts, each ranked and at increasing ranks, join into a list without a repeated name. */
  lemma RankedPartsDistinct(a: seq<EnvVar>, b: seq<EnvVar>, c: seq<EnvVar>, d: seq<EnvVar>)
    requires StrictlyRanked(a) && StrictlyRanked(b) && StrictlyRanked(c) && StrictlyRanked(d)
    requires forall e | e in a :: CredentialRank(e.name) == 0
    requires forall e | e in b :: CredentialRank(e.name) == 1
    requires forall e | e in c :: CredentialRank(e.name) == 2
    requires forall e | e in d :: CredentialRank(e.name) == 3
    ensures forall i, j | 0 <= i < j < |a + b + c + d| :: (a + b + c + d)[i].name != (a + b + c + d)[j].name
  {
    RankedConcat(a, b, 1);
    assert forall e: EnvVar | e in a + b :: CredentialRank(e.name) < 2;
    RankedConcat(a + b, c, 2);
    assert forall e: EnvVar | e in a + b + c :: CredentialRank(e.name) < 3;
    RankedConcat(a + b + c, d, 3);
  }

  /** No variable name occurs twice: each credential gets at most one entry. */
  lemma SecretEnvAtMostOnce(spec: EdgeLakeOperatorSpec, names: ResourceNames)
    ensures forall i, j | 0 <= i < j < |SecretEnv(spec, names)| :: SecretEnv(spec, names)[i].name != SecretEnv(spec, names)[j].name
  {
    PartRanked(spec, names, DbPassword);
    PartRanked(spec, names, NosqlPassword);
    PartRanked(spec, names, MqttPassword);
    PartRanked(spec, names, LicenseKey);
    RankedPartsDistinct(CredentialEnvList(spec, names, DbPassword), CredentialEnvList(spec, names, NosqlPassword),
      CredentialEnvList(spec, names, MqttPassword), CredentialEnvList(spec, names, LicenseKey));
  }

  /**
   * The variables that read the generated Secret name only keys present in it:
   * an entry without an external reference exists only for an inline-only
   * credential, which is exactly when `build_secret` stores that key.
   */
  lemma GeneratedKeysAreStored(spec: EdgeLakeOperatorSpec, names: ResourceNames, k: SecretKey)
    requires CredentialEnv(spec, names, k).Some? && CredentialOf(spec, k).ref.None?
    ensures InlineOnly(CredentialOf(spec, k))
    ensures CredentialEnv(spec, names, k).value == EnvVar(CredentialVar(k), names.secret, SecretKeyName(k))
  {
  }

  /** The Deployment `build_deployment` returns, as one value. */
  function DeploymentOf(name: string, namespace: string, spec: EdgeLakeOperatorSpec, names: ResourceNames,
                        configHash: Option<string>): Manifest
  {
    Deployment(ObjectMeta(names.deployment, namespace, Labels(name), None, false),
      DeploymentSpec(1, SelectorLabels(name),
        PodTemplate(SelectorLabels(name),
          if TruthyStr(configHash) then Some(map[ConfigHashAnnotation := configHash.value]) else None,
          PodSpec([NodeContainerOf(name, spec, names)], BuildVolumes(spec, names),
            if TruthyStr(spec.image.pullSecretName) then Some([spec.image.pullSecretName.value]) else None))))
  }

  /** The container of `build_deployment`, as one value. */
  function NodeContainerOf(name: string, spec: EdgeLakeOperatorSpec, names: ResourceNames): Container {
    var net := spec.networking;
    var env := SecretEnv(spec, names);
    Container(name + "-container", spec.image.repository + ":" + spec.image.tag, spec.image.pullPolicy,
      [ContainerPort("tcp-server", net.serverPort, "TCP"), ContainerPort("rest-api", net.restPort, "TCP")]
      + (if TruthyInt(net.brokerPort) then [ContainerPort("mqtt-broker", net.brokerPort.value, "TCP")] else []),
      [names.configmap], true, true, VolumeMounts, spec.resources, if |env| > 0 then Some(env) else None)
  }

  /**
   * `build_deployment`: one replica selected by the selector labels; the pod
   * template is annotated with the configuration hash exactly when the hash is
   * truthy; one container running `repository:tag` whose environment comes
   * from the ConfigMap plus the credential variables (the `env` key only when
   * there is one), with 2 or 3 ports and the four fixed mounts; pull secrets
   * only when a pull secret name is given.
   */
  method BuildDeployment(name: string, namespace: string, spec: EdgeLakeOperatorSpec, names: ResourceNames,
                         configHash: Option<string>)
    returns (m: Manifest)
    ensures m == DeploymentOf(name, namespace, spec, names, configHash)
    ensures m.Deployment? && KindOf(m) == Some(DeploymentKind)
    ensures m.meta == ObjectMeta(names.deployment, namespace, Labels(name), None, false)
    ensures m.deployment.replicas == 1
    ensures m.deployment.matchLabels == SelectorLabels(name) && m.deployment.template.labels == SelectorLabels(name)
    ensures m.deployment.template.annotations.Some? <==> TruthyStr(configHash)
    ensures m.deployment.template.annotations.Some? ==>
      m.deployment.template.annotations.value == map[ConfigHashAnnotation := configHash.value]
    ensures |m.deployment.template.pod.containers| == 1
    ensures m.deployment.template.pod.volumes == BuildVolumes(spec, names)
    ensures m.deployment.template.pod.imagePullSecrets.Some? <==> TruthyStr(spec.image.pullSecretName)
    ensures m.deployment.template.pod.imagePullSecrets.Some? ==>
      m.deployment.template.pod.imagePullSecrets.value == [spec.image.pullSecretName.value]
    ensures IsNodeContainer(m.deployment.template.pod.containers[0], name, spec, names)
  {
    var annotations: map<string, string> := map[];
    if TruthyStr(configHash) {
      annotations := annotations[ConfigHashAnnotation := configHash.value];
    }
    var volumes := BuildVolumes(spec, names);
    var container := BuildNodeContainer(name, spec, names);
    var pullSecrets: seq<string> := [];
    if TruthyStr(spec.image.pullSecretName) {
      pullSecrets := pullSecrets + [spec.image.pullSecretName.value];
      assert pullSecrets == [spec.image.pullSecretName.value];
    }
    var pod := PodSpec([container], volumes, None);
    if |pullSecrets| > 0 {
      pod := pod.(imagePullSecrets := Some(pullSecrets));
    }
    assert TruthyStr(configHash) ==> annotations == map[ConfigHashAnnotation := configHash.value];
    assert |annotations| > 0 <==> TruthyStr(configHash) by {
      if TruthyStr(configHash) { assert ConfigHashAnnotation in annotations; }
    }
    assert TruthyStr(spec.image.pullSecretName) ==> pod.imagePullSecrets == Some([spec.image.pullSecretName.value]);
    m := Deployment(ObjectMeta(names.deployment, namespace, Labels(name), None, false),
      DeploymentSpec(1, SelectorLabels(name),
        PodTemplate(SelectorLabels(name), if |annotations| > 0 then Some(annotations) else None, pod)));
  }

  /**
   * The container of `build_deployment`: ports tcp-server and rest-api, plus
   * mqtt-broker appended when the broker port is truthy; `env` set only when
   * some credential variable exists.
   */
  method BuildNodeContainer(name: string, spec: EdgeLakeOperatorSpec, names: ResourceNames) returns (c: Container)
    ensures c == NodeContainerOf(name, spec, names)
    ensures IsNodeContainer(c, name, spec, names)
  {
    var net := spec.networking;
    var ports := [ContainerPort("tcp-server", net.serverPort, "TCP"), ContainerPort("rest-api", net.restPort, "TCP")];
    if TruthyInt(net.brokerPort) {
      ports := ports + [ContainerPort("mqtt-broker", net.brokerPort.value, "TCP")];
    }
    var env := BuildSecretEnvVars(spec, names);
    c := Container(name + "-container", spec.image.repository + ":" + spec.image.tag,
      spec.image.pullPolicy, ports, [names.configmap], true, true, VolumeMounts, spec.resources, None);
    if |env| > 0 {
      c := c.(env := Some(env));
    }
  }

  /** What `build_deployment` promises about its one container. */
  predicate IsNodeContainer(c: Container, name: string, spec: EdgeLakeOperatorSpec, names: ResourceNames) {
    && c.name == name + "-container"
    && c.image == spec.image.repository + ":" + spec.image.tag
    && c.imagePullPolicy == spec.image.pullPolicy
    && c.envFrom == [names.configmap]
    && c.tty && c.stdin
    && c.volumeMounts == VolumeMounts
    && c.resources == spec.resources
    && |c.ports| == (if TruthyInt(spec.networking.brokerPort) then 3 else 2)
    && c.ports[0] == ContainerPort("tcp-server", spec.networking.serverPort, "TCP")
    && c.ports[1] == ContainerPort("rest-api", spec.networking.restPort, "TCP")
    && (|c.ports| == 3 ==> c.ports[2] == ContainerPort("mqtt-broker", spec.networking.brokerPort.value, "TCP"))
    && (c.env.Some? <==> |SecretEnv(spec, names)| > 0)
    && (c.env.Some? ==> c.env.value == SecretEnv(spec, names))
  }
}
