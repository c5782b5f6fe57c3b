/**
 * The Kubernetes objects the Python operator builds and stores, reduced to
 * the fields it sets or reads: metadata, ConfigMap and Secret data, PVC,
 * Service and Deployment specs.
 */
module PyManifest {
  import opened Common
  import opened PySpec

  /** The object kinds the apply layer dispatches on. */
  datatype Kind = ConfigMapKind | SecretKind | ServiceKind | DeploymentKind | PvcKind

  /** The `kind` string of each supported object. */
  function KindName(k: Kind): string {
    match k
    case ConfigMapKind => "ConfigMap"
    case SecretKind => "Secret"
    case ServiceKind => "Service"
    case DeploymentKind => "Deployment"
    case PvcKind => "PersistentVolumeClaim"
  }

  /** The kind a `kind` string names, if it is one of the five supported kinds. */
  function ParseKind(s: string): (k: Option<Kind>)
    ensures k.Some? ==> KindName(k.value) == s
    ensures k.None? ==> forall kd: Kind :: KindName(kd) != s
  {
    if s == "ConfigMap" then Some(ConfigMapKind)
    else if s == "Secret" then Some(SecretKind)
    else if s == "Service" then Some(ServiceKind)
    else if s == "Deployment" then Some(DeploymentKind)
    else if s == "PersistentVolumeClaim" then Some(PvcKind)
    else None
  }

  /**
   * Names of the container's environment variables that the operator may
   * emit, grouped by the spec section they come from: the ConfigMap keys
   * (each constructor named as its key) and the four credential variables,
   * which come from Secret references instead.
   */
  datatype EnvKey =
    | Fixed(FixedVar) | General(GeneralVar) | Net(NetVar) | Geo(GeoVar) | Db(DbVar) | NoSql(NoSqlVar)
    | Chain(ChainVar) | Op(OperatorVar) | Part(PartitionVar) | Mqtt(MqttVar) | Opcua(OpcuaVar) | EtherIp(EtherIpVar)
    | Agg(AggVar) | Monitor(MonitorVar) | Mcp(McpVar) | Adv(AdvancedVar) | Nebula(NebulaVar)

  /** Kubernetes indicator, directories and service discovery. */
  datatype FixedVar = IS_KUBERNETES | INIT_TYPE | ANYLOG_PATH | LOCAL_SCRIPTS | TEST_DIR | PROXY_IP
  datatype GeneralVar = NODE_TYPE | NODE_NAME | COMPANY_NAME | DISABLE_CLI | REMOTE_CLI | LICENSE_KEY
  datatype NetVar =
    | ANYLOG_SERVER_PORT | ANYLOG_REST_PORT | TCP_BIND | REST_BIND | BROKER_BIND | TCP_THREADS | REST_TIMEOUT
    | REST_THREADS | BROKER_THREADS | OVERLAY_IP | ANYLOG_BROKER_PORT | CONFIG_NAME | NIC_TYPE
  datatype GeoVar = LOCATION | COUNTRY | STATE | CITY
  datatype DbVar = DB_TYPE | DB_IP | DB_PORT | AUTOCOMMIT | SYSTEM_QUERY | MEMORY | DB_USER | DB_PASSWD
  datatype NoSqlVar =
    | ENABLE_NOSQL | NOSQL_TYPE | NOSQL_IP | NOSQL_PORT | BLOBS_DBMS | BLOBS_REUSE | NOSQL_USER | NOSQL_PASSWD
  datatype ChainVar = LEDGER_CONN | SYNC_TIME | BLOCKCHAIN_SYNC | BLOCKCHAIN_SOURCE | BLOCKCHAIN_DESTINATION
  datatype OperatorVar = CLUSTER_NAME | DEFAULT_DBMS | ENABLE_HA | START_DATE | OPERATOR_THREADS | MEMBER
  datatype PartitionVar =
    | ENABLE_PARTITIONS | TABLE_NAME | PARTITION_COLUMN | PARTITION_INTERVAL | PARTITION_KEEP | PARTITION_SYNC
  datatype MqttVar =
    | ENABLE_MQTT | MQTT_PORT | MQTT_LOG | MQTT_BROKER | MQTT_USER | MQTT_PASSWD
    | MSG_TOPIC | MSG_DBMS | MSG_TABLE | MSG_TIMESTAMP_COLUMN | MSG_VALUE_COLUMN | MSG_VALUE_COLUMN_TYPE
  datatype OpcuaVar = ENABLE_OPCUA | OPCUA_URL | OPCUA_NODE | OPCUA_FREQUENCY
  datatype EtherIpVar = ENABLE_ETHERIP | SIMULATOR_MODE | ETHERIP_URL | ETHERIP_FREQUENCY
  datatype AggVar = ENABLE_AGGREGATIONS | AGGREGATION_TIME_COLUMN | AGGREGATION_VALUE_COLUMN
  datatype MonitorVar = MONITOR_NODES | STORE_MONITORING | SYSLOG_MONITORING
  datatype McpVar = MCP_AUTOSTART
  datatype AdvancedVar =
    | DEPLOY_LOCAL_SCRIPT | DEBUG_MODE | COMPRESS_FILE | QUERY_POOL | WRITE_IMMEDIATE | THRESHOLD_TIME | THRESHOLD_VOLUME
  datatype NebulaVar =
    | ENABLE_NEBULA | NEBULA_NEW_KEYS | IS_LIGHTHOUSE | CIDR_OVERLAY_ADDRESS | LIGHTHOUSE_IP | LIGHTHOUSE_NODE_IP

  /** The four variables that carry credentials. */
  predicate IsCredentialKey(k: EnvKey) {
    k == Db(DB_PASSWD) || k == NoSql(NOSQL_PASSWD) || k == Mqtt(MQTT_PASSWD) || k == General(LICENSE_KEY)
  }

  /** The keys of the generated Secret's `data`. */
  datatype SecretKey = DbPassword | NosqlPassword | MqttPassword | LicenseKey

  function SecretKeyName(k: SecretKey): string {
    match k
    case DbPassword => "db-password"
    case NosqlPassword => "nosql-password"
    case MqttPassword => "mqtt-password"
    case LicenseKey => "license-key"
  }

  /**
   * Object metadata. `owned` records whether the object was adopted by the
   * custom resource (an owner reference, so it is garbage-collected with it).
   */
  datatype ObjectMeta = ObjectMeta(
    name: string, namespace: string, labels: map<string, string>, resourceVersion: Option<string>, owned: bool)

  datatype PvcSpec = PvcSpec(accessModes: seq<string>, storage: string, storageClassName: Option<string>)

  datatype ServicePort = ServicePort(name: string, port: int, targetPort: int, protocol: string, nodePort: Option<int>)

  datatype ServiceSpec = ServiceSpec(
    serviceType: string, selector: map<string, string>, ports: seq<ServicePort>, clusterIP: Option<string>)

  datatype ContainerPort = ContainerPort(name: string, containerPort: int, protocol: string)

  datatype VolumeMount = VolumeMount(name: string, mountPath: string)

  datatype VolumeSource = ClaimVolume(claimName: string) | EmptyDirVolume

  datatype Volume = Volume(name: string, source: VolumeSource)

  /** An environment variable whose value is the key `secretKey` of the Secret `secretName`. */
  datatype EnvVar = EnvVar(name: EnvKey, secretName: string, secretKey: string)

  /** A container; `envFrom` lists the ConfigMaps whose keys become variables. */
  datatype Container = Container(
    name: string, image: string, imagePullPolicy: string, ports: seq<ContainerPort>, envFrom: seq<string>,
    tty: bool, stdin: bool, volumeMounts: seq<VolumeMount>, resources: ResourcesSpec, env: Option<seq<EnvVar>>)

  datatype PodSpec = PodSpec(containers: seq<Container>, volumes: seq<Volume>, imagePullSecrets: Option<seq<string>>)

  datatype PodTemplate = PodTemplate(labels: map<string, string>, annotations: Option<map<string, string>>, pod: PodSpec)

  datatype DeploymentSpec = DeploymentSpec(replicas: int, matchLabels: map<string, string>, template: PodTemplate)

  /** A manifest handed to the apply layer; `Unsupported` stands for any other kind. */
  datatype Manifest =
    | ConfigMap(meta: ObjectMeta, data: map<EnvKey, string>)
    | Secret(meta: ObjectMeta, secretType: string, secretData: map<SecretKey, string>)
    | Pvc(meta: ObjectMeta, pvc: PvcSpec)
    | Service(meta: ObjectMeta, service: ServiceSpec)
    | Deployment(meta: ObjectMeta, deployment: DeploymentSpec)
    | Unsupported(kindName: string, meta: ObjectMeta)

  /** The kind of a manifest, `None` for an unsupported one. */
  function KindOf(m: Manifest): (k: Option<Kind>)
    ensures k.None? <==> m.Unsupported?
  {
    match m
    case ConfigMap(_, _) => Some(ConfigMapKind)
    case Secret(_, _, _) => Some(SecretKind)
    case Pvc(_, _) => Some(PvcKind)
    case Service(_, _) => Some(ServiceKind)
    case Deployment(_, _) => Some(DeploymentKind)
    case Unsupported(_, _) => None
  }

  /** `kopf.adopt`: the object becomes owned by the custom resource. */
  function Adopt(m: Manifest): (r: Manifest)
    ensures r.meta == m.meta.(owned := true)
    ensures KindOf(r) == KindOf(m)
  {
    m.(meta := m.meta.(owned := true))
  }

  const NameLabel := "app.kubernetes.io/name"
  const InstanceLabel := "app.kubernetes.io/instance"
  const ComponentLabel := "app.kubernetes.io/component"
  const ManagedByLabel := "app.kubernetes.io/managed-by"
  const AppLabel := "app"

  /** `_build_labels`, the same in every builder: four labels, only the instance depends on the name. */
  function Labels(name: string): (l: map<string, string>)
    ensures l.Keys == {NameLabel, InstanceLabel, ComponentLabel, ManagedByLabel} && |l| == 4
    ensures l[NameLabel] == "edgelake-operator" && l[InstanceLabel] == name
    ensures l[ComponentLabel] == "operator" && l[ManagedByLabel] == "edgelake-kube-operator"
  {
    assert |NameLabel| != |InstanceLabel| && |NameLabel| != |ComponentLabel| && |NameLabel| != |ManagedByLabel|;
    assert |InstanceLabel| != |ComponentLabel| && |InstanceLabel| != |ManagedByLabel|;
    assert |ComponentLabel| != |ManagedByLabel|;
    map[NameLabel := "edgelake-operator", InstanceLabel := name, ComponentLabel := "operator",
        ManagedByLabel := "edgelake-kube-operator"]
  }

  /** `_build_selector_labels`: the three labels that select the pods of the custom resource. */
  function SelectorLabels(name: string): (l: map<string, string>)
    ensures l.Keys == {NameLabel, InstanceLabel, AppLabel} && |l| == 3
    ensures l[NameLabel] == "edgelake-operator" && l[InstanceLabel] == name && l[AppLabel] == name
  {
    assert |NameLabel| != |InstanceLabel| && |NameLabel| != |AppLabel| && |InstanceLabel| != |AppLabel|;
    map[NameLabel := "edgelake-operator", InstanceLabel := name, AppLabel := name]
  }

  /**
   * The selector labels are not a sub-map of the standard labels: they share
   * name and instance, but `app` is only a selector label.
   */
  lemma SelectorSharesNameAndInstance(name: string)
    ensures forall k | k in SelectorLabels(name) && k != AppLabel :: k in Labels(name) && Labels(name)[k] == SelectorLabels(name)[k]
    ensures AppLabel !in Labels(name)
  {
    assert |AppLabel| != |ComponentLabel| && |AppLabel| != |ManagedByLabel|;
  }
}
