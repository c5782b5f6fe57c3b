/**
 * The custom resource of the Go operator (`EdgeLakeOperator`, its spec and
 * status). Every nil-able Go field is an `Option`; a Go string or number
 * field holds its zero value (`""`, `0`, `false`) when unset. The `int32`
 * fields are modelled as `int`: the operator only compares, copies and
 * prints them.
 */
module GoTypes {
  import opened Common

  datatype MetadataSpec = MetadataSpec(
    hostname: string, appName: string, serviceName: string, configMapName: string,
    nodeSelector: map<string, string>, serviceType: string)

  datatype ImageSpec = ImageSpec(secretName: string, repository: string, tag: string, pullPolicy: string)

  datatype VolumeSpec = VolumeSpec(size: string)

  datatype PersistenceSpec = PersistenceSpec(
    enabled: bool, storageClassName: string, accessMode: string,
    anylog: Option<VolumeSpec>, blockchain: Option<VolumeSpec>, data: Option<VolumeSpec>, scripts: Option<VolumeSpec>)

  /** `corev1.ResourceRequirements`, carried into the container as it is. */
  datatype ResourceRequirements = ResourceRequirements(limits: map<string, string>, requests: map<string, string>)

  datatype DirectoriesConfig = DirectoriesConfig(anylogPath: string, localScripts: string, testDir: string)

  datatype GeneralConfig = GeneralConfig(
    licenseKey: string, nodeType: string, nodeName: string, companyName: string, disableCli: bool, remoteCli: bool)

  datatype GeolocationConfig = GeolocationConfig(location: string, country: string, state: string, city: string)

  datatype NetworkingConfig = NetworkingConfig(
    overlayIp: string, serverPort: int, restPort: int, brokerPort: int,
    tcpBind: bool, restBind: bool, brokerBind: bool, configName: string, nicType: string,
    tcpThreads: int, restTimeout: int, restThreads: int, brokerThreads: int)

  datatype DatabaseConfig = DatabaseConfig(
    dbType: string, dbUser: string, dbPasswd: string, dbIp: string, dbPort: int,
    autocommit: bool, enableNoSql: bool, systemQuery: bool, memory: bool,
    noSqlType: string, noSqlUser: string, noSqlPasswd: string, noSqlIp: string, noSqlPort: int,
    blobsDbms: bool, blobsReuse: bool)

  datatype BlockchainConfig = BlockchainConfig(
    ledgerConn: string, syncTime: string, blockchainSync: string, source: string, destination: string)

  datatype OperatorConfig = OperatorConfig(
    clusterName: string, defaultDbms: string, member: string, enableHa: bool, startDate: int, threads: int,
    enablePartitions: bool, tableName: string, partitionColumn: string, partitionInterval: string,
    partitionKeep: int, partitionSync: string)

  datatype MqttConfig = MqttConfig(
    enable: bool, broker: string, port: int, user: string, passwd: string, log: bool,
    msgTopic: string, msgDbms: string, msgTable: string, msgTimestampColumn: string,
    msgValueColumn: string, msgValueColumnType: string)

  datatype OpcuaConfig = OpcuaConfig(enable: bool, url: string, node: string, frequency: string)

  datatype EtherIpConfig = EtherIpConfig(enable: bool, simulatorMode: bool, url: string, frequency: string)

  datatype AggregationsConfig = AggregationsConfig(enable: bool, timeColumn: string, valueColumn: string)

  datatype MonitoringConfig = MonitoringConfig(monitorNodes: bool, storeMonitoring: bool, syslogMonitoring: bool)

  datatype McpConfig = McpConfig(autostart: bool)

  datatype AdvancedConfig = AdvancedConfig(
    deployLocalScript: bool, debugMode: bool, compressFile: bool, queryPool: int, writeImmediate: bool,
    thresholdTime: string, thresholdVolume: string)

  datatype NebulaConfig = NebulaConfig(
    enable: bool, newKeys: bool, isLighthouse: bool,
    cidrOverlayAddress: string, lighthouseIp: string, lighthouseNodeIp: string)

  datatype NodeConfigsSpec = NodeConfigsSpec(
    directories: Option<DirectoriesConfig>, general: Option<GeneralConfig>, geolocation: Option<GeolocationConfig>,
    networking: Option<NetworkingConfig>, database: Option<DatabaseConfig>, blockchain: Option<BlockchainConfig>,
    operator: Option<OperatorConfig>, mqtt: Option<MqttConfig>, opcua: Option<OpcuaConfig>,
    etherip: Option<EtherIpConfig>, aggregations: Option<AggregationsConfig>, monitoring: Option<MonitoringConfig>,
    mcp: Option<McpConfig>, advanced: Option<AdvancedConfig>, nebula: Option<NebulaConfig>)

  datatype EdgeLakeOperatorSpec = EdgeLakeOperatorSpec(
    metadata: Option<MetadataSpec>, image: Option<ImageSpec>, persistence: Option<PersistenceSpec>,
    resources: Option<ResourceRequirements>, nodeConfigs: Option<NodeConfigsSpec>)

  /** A `metav1.Condition`; the transition time is a clock reading passed in by the caller. */
  datatype Condition = Condition(condType: string, status: string, reason: string, message: string, lastTransitionTime: int)

  datatype EdgeLakeOperatorStatus = EdgeLakeOperatorStatus(
    conditions: seq<Condition>, phase: string, observedGeneration: int, ready: bool,
    deploymentName: string, serviceName: string, configMapName: string)

  /**
   * The custom resource as the API server stores it. `deletionRequested`
   * stands for a non-zero `DeletionTimestamp`.
   */
  datatype EdgeLakeOperator = EdgeLakeOperator(
    name: string, namespace: string, generation: int, deletionRequested: bool, finalizers: seq<string>,
    spec: EdgeLakeOperatorSpec, status: EdgeLakeOperatorStatus)

  /** `cr.Spec.NodeConfigs.Networking` can be dereferenced. */
  predicate HasNetworking(cr: EdgeLakeOperator) {
    cr.spec.nodeConfigs.Some? && cr.spec.nodeConfigs.value.networking.Some?
  }

  function Networking(cr: EdgeLakeOperator): NetworkingConfig
    requires HasNetworking(cr)
  {
    cr.spec.nodeConfigs.value.networking.value
  }

  /** `cr.Spec.Persistence != nil && cr.Spec.Persistence.Enabled`. */
  predicate PersistenceEnabled(cr: EdgeLakeOperator) {
    cr.spec.persistence.Some? && cr.spec.persistence.value.enabled
  }

  // The zero values `&T{}` the defaulting code allocates for a nil section.

  const EmptyMetadata := MetadataSpec("", "", "", "", map[], "")
  const EmptyImage := ImageSpec("", "", "", "")
  const EmptyNodeConfigs := NodeConfigsSpec(None, None, None, None, None, None, None, None, None, None, None, None, None, None, None)
  const EmptyDirectories := DirectoriesConfig("", "", "")
  const EmptyGeneral := GeneralConfig("", "", "", "", false, false)
  const EmptyNetworking := NetworkingConfig("", 0, 0, 0, false, false, false, "", "", 0, 0, 0, 0)
  const EmptyDatabase := DatabaseConfig("", "", "", "", 0, false, false, false, false, "", "", "", "", 0, false, false)
  const EmptyBlockchain := BlockchainConfig("", "", "", "", "")
  const EmptyOperator := OperatorConfig("", "", "", false, 0, 0, false, "", "", "", 0, "")
  const EmptyMqtt := MqttConfig(false, "", 0, "", "", false, "", "", "", "", "", "")
  const EmptyAggregations := AggregationsConfig(false, "", "")
  const EmptyAdvanced := AdvancedConfig(false, false, false, 0, false, "", "")

  /**
   * The in-memory copy of the custom resource that `Reconcile` fetches into
   * and then changes in place: defaulting fills its spec, the finalizer
   * logic its finalizers, the status logic its status.
   */
  class Instance {
    const name: string
    const namespace: string
    const generation: int
    const deletionRequested: bool
    var finalizers: seq<string>
    var spec: EdgeLakeOperatorSpec
    var status: EdgeLakeOperatorStatus

    /** The custom resource this copy now describes. */
    function Value(): EdgeLakeOperator
      reads this
    {
      EdgeLakeOperator(name, namespace, generation, deletionRequested, finalizers, spec, status)
    }

    /** `r.Get(ctx, key, edgelake)`: a copy of the stored resource. */
    constructor (stored: EdgeLakeOperator)
      ensures Value() == stored
    {
      name := stored.name;
      namespace := stored.namespace;
      generation := stored.generation;
      deletionRequested := stored.deletionRequested;
      finalizers := stored.finalizers;
      spec := stored.spec;
      status := stored.status;
    }
  }
}
