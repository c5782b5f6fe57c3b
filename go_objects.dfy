/**
 * The Kubernetes objects the Go operator builds and stores: ConfigMap,
 * PersistentVolumeClaim, Service and Deployment, with only the fields the
 * builders set. As in Go, a zero number (a Service port's `NodePort`) or an
 * empty string (a Service's `ClusterIP`) means "unset"; optional structures
 * are `Option`s.
 */
module GoObjects {
  import opened Common
  import opened GoTypes

  datatype Kind = ConfigMapKind | PvcKind | ServiceKind | DeploymentKind

  /**
   * `controller` is the name of the custom resource recorded as the
   * object's controlling owner, if any.
   */
  datatype ObjectMeta = ObjectMeta(name: string, namespace: string, labels: map<string, string>, controller: Option<string>)

  // The ConfigMap's keys, grouped by the spec section whose nil check
  // guards them (Database and Operator each guard two groups). The names
  // are the environment variable names.

  datatype FixedVar = IS_KUBERNETES | PROXY_IP
  datatype DirVar = ANYLOG_PATH | LOCAL_SCRIPTS | TEST_DIR
  datatype GeneralVar = LICENSE_KEY | INIT_TYPE | NODE_TYPE | NODE_NAME | COMPANY_NAME | DISABLE_CLI | REMOTE_CLI
  datatype GeoVar = LOCATION | COUNTRY | STATE | CITY
  datatype NetVar =
    | OVERLAY_IP | ANYLOG_SERVER_PORT | ANYLOG_REST_PORT | ANYLOG_BROKER_PORT | TCP_BIND | REST_BIND | BROKER_BIND
    | CONFIG_NAME | NIC_TYPE | TCP_THREADS | REST_TIMEOUT | REST_THREADS | BROKER_THREADS
  datatype DbVar = DB_TYPE | DB_USER | DB_PASSWD | DB_IP | DB_PORT | AUTOCOMMIT | ENABLE_NOSQL | SYSTEM_QUERY | MEMORY
  datatype NoSqlVar = NOSQL_TYPE | NOSQL_USER | NOSQL_PASSWD | NOSQL_IP | NOSQL_PORT | BLOBS_DBMS | BLOBS_REUSE
  datatype ChainVar = LEDGER_CONN | SYNC_TIME | BLOCKCHAIN_SYNC | BLOCKCHAIN_SOURCE | BLOCKCHAIN_DESTINATION
  datatype OperatorVar = CLUSTER_NAME | DEFAULT_DBMS | MEMBER | ENABLE_HA | START_DATE | OPERATOR_THREADS
  datatype PartitionVar =
    ENABLE_PARTITIONS | TABLE_NAME | PARTITION_COLUMN | PARTITION_INTERVAL | PARTITION_KEEP | PARTITION_SYNC
  datatype MqttVar =
    | ENABLE_MQTT | MQTT_BROKER | MQTT_PORT | MQTT_USER | MQTT_PASSWD | MQTT_LOG | MSG_TOPIC | MSG_DBMS | MSG_TABLE
    | MSG_TIMESTAMP_COLUMN | MSG_VALUE_COLUMN | MSG_VALUE_COLUMN_TYPE
  datatype OpcuaVar = ENABLE_OPCUA | OPCUA_URL | OPCUA_NODE | OPCUA_FREQUENCY
  datatype EtherIpVar = ENABLE_ETHERIP | SIMULATOR_MODE | ETHERIP_URL | ETHERIP_FREQUENCY
  datatype AggVar = ENABLE_AGGREGATIONS | AGGREGATION_TIME_COLUMN | AGGREGATION_VALUE_COLUMN
  datatype MonitorVar = MONITOR_NODES | STORE_MONITORING | SYSLOG_MONITORING
  datatype McpVar = MCP_AUTOSTART
  datatype AdvancedVar =
    DEPLOY_LOCAL_SCRIPT | DEBUG_MODE | COMPRESS_FILE | QUERY_POOL | WRITE_IMMEDIATE | THRESHOLD_TIME | THRESHOLD_VOLUME
  datatype NebulaVar =
    ENABLE_NEBULA | NEBULA_NEW_KEYS | IS_LIGHTHOUSE | CIDR_OVERLAY_ADDRESS | LIGHTHOUSE_IP | LIGHTHOUSE_NODE_IP

  datatype CmKey =
    | Fixed(fixed: FixedVar) | Dirs(dirs: DirVar) | General(general: GeneralVar) | Geo(geo: GeoVar) | Net(net: NetVar)
    | Db(db: DbVar) | NoSql(noSql: NoSqlVar) | Chain(chain: ChainVar) | Op(op: OperatorVar) | Part(part: PartitionVar)
    | Mqtt(mqtt: MqttVar) | Opcua(opcua: OpcuaVar) | EtherIp(etherIp: EtherIpVar) | Agg(agg: AggVar)
    | Monitor(monitor: MonitorVar) | Mcp(mcp: McpVar) | Adv(adv: AdvancedVar) | Nebula(nebula: NebulaVar)

  datatype PvcSpec = PvcSpec(accessModes: seq<string>, storage: string, storageClassName: Option<string>)

  datatype ServicePort = ServicePort(name: string, protocol: string, port: int, targetPort: int, nodePort: int)

  datatype ServiceSpec = ServiceSpec(serviceType: string, selector: map<string, string>, ports: seq<ServicePort>, clusterIP: string)

  datatype ContainerPort = ContainerPort(name: string, containerPort: int, protocol: string)

  datatype VolumeMount = VolumeMount(name: string, mountPath: string)

  datatype VolumeSource = ClaimVolume(claimName: string) | EmptyDirVolume

  datatype Volume = Volume(name: string, source: VolumeSource)

  /** A TCP-socket probe on `port` with its timing. */
  datatype Probe = Probe(port: int, initialDelaySeconds: int, periodSeconds: int, timeoutSeconds: int, failureThreshold: int)

  /** A container; `envFrom` lists the ConfigMaps whose keys become variables. */
  datatype Container = Container(
    name: string, image: string, imagePullPolicy: string, ports: seq<ContainerPort>, envFrom: seq<string>,
    tty: bool, stdin: bool, volumeMounts: seq<VolumeMount>, livenessProbe: Probe, readinessProbe: Probe,
    resources: Option<ResourceRequirements>)

  datatype PodSpec = PodSpec(
    containers: seq<Container>, volumes: seq<Volume>, nodeSelector: Option<map<string, string>>,
    imagePullSecrets: Option<seq<string>>)

  datatype PodTemplate = PodTemplate(labels: map<string, string>, annotations: Option<map<string, string>>, pod: PodSpec)

  datatype DeploymentSpec = DeploymentSpec(replicas: int, matchLabels: map<string, string>, template: PodTemplate)

  datatype Object =
    | ConfigMap(meta: ObjectMeta, data: map<CmKey, string>)
    | Pvc(meta: ObjectMeta, pvc: PvcSpec)
    | Service(meta: ObjectMeta, service: ServiceSpec)
    | Deployment(meta: ObjectMeta, deployment: DeploymentSpec)

  function KindOf(o: Object): Kind {
    match o
    case ConfigMap(_, _) => ConfigMapKind
    case Pvc(_, _) => PvcKind
    case Service(_, _) => ServiceKind
    case Deployment(_, _) => DeploymentKind
  }

  /** `controllerutil.SetControllerReference`: the custom resource becomes the controlling owner. */
  function Controlled(o: Object, owner: string): (r: Object)
    ensures r.meta == o.meta.(controller := Some(owner)) && KindOf(r) == KindOf(o)
  {
    o.(meta := o.meta.(controller := Some(owner)))
  }
}
