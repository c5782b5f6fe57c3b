/**
 * The parsed `EdgeLakeOperator` custom-resource spec of the Python operator:
 * one datatype per section, the defaults every optional field takes, the
 * field constraints the parser enforces, and `has_inline_secrets`.
 * Python's `type` fields are named `dbType`; `Optional[...]` fields are
 * `Option`s.
 */
module PySpec {
  import opened Common

  // Default values (constants module of the Python operator).
  const DefaultImageRepository := "anylogco/edgelake-network"
  const DefaultImageTag := "1.3.2500"
  const DefaultImagePullPolicy := "IfNotPresent"
  const DefaultCpuLimit := "2000m"
  const DefaultMemoryLimit := "4Gi"
  const DefaultCpuRequest := "500m"
  const DefaultMemoryRequest := "1Gi"
  const DefaultServerPort := 32148
  const DefaultRestPort := 32149
  const DefaultServiceType := "NodePort"
  const DefaultDbType := "sqlite"
  const DefaultDbHost := "127.0.0.1"
  const DefaultDbPort := 5432
  const DefaultNosqlType := "mongo"
  const DefaultNosqlHost := "127.0.0.1"
  const DefaultNosqlPort := 27017
  const DefaultBlockchainSource := "master"
  const DefaultBlockchainDestination := "file"
  const DefaultSyncTime := "30 second"
  const DefaultPartitionEnabled := true
  const DefaultPartitionTable := "*"
  const DefaultPartitionColumn := "insert_timestamp"
  const DefaultPartitionInterval := "14 days"
  const DefaultPartitionKeep := 3
  const DefaultPartitionSync := "1 day"
  const DefaultOperatorThreads := 3
  const DefaultStartDate := 30
  const DefaultTcpThreads := 6
  const DefaultRestThreads := 6
  const DefaultRestTimeout := 30
  const DefaultBrokerThreads := 6
  const DefaultQueryPool := 6
  const DefaultThresholdTime := "60 seconds"
  const DefaultThresholdVolume := "100KB"
  const DefaultPvcAnylogSize := "5Gi"
  const DefaultPvcBlockchainSize := "1Gi"
  const DefaultPvcDataSize := "10Gi"
  const DefaultPvcScriptsSize := "1Gi"
  const DefaultAccessMode := "ReadWriteOnce"

  // Fixed container paths.
  const AnylogPath := "/app"
  const LocalScriptsPath := "/app/deployment-scripts/node-deployment"
  const TestDirPath := "/app/deployment-scripts/tests"
  const VolumeMountAnylog := "/app/EdgeLake/anylog"
  const VolumeMountBlockchain := "/app/EdgeLake/blockchain"
  const VolumeMountData := "/app/EdgeLake/data"
  const VolumeMountScripts := "/app/deployment-scripts"

  /** Reference to a key of an existing Kubernetes Secret. */
  datatype SecretRef = SecretRef(name: string, key: string)

  datatype ImageSpec = ImageSpec(repository: string, tag: string, pullPolicy: string, pullSecretName: Option<string>)

  /** CPU and memory quantities, kept as the strings the user wrote. */
  datatype Quantities = Quantities(cpu: string, memory: string)

  datatype ResourcesSpec = ResourcesSpec(limits: Quantities, requests: Quantities)

  /** Persistent volume settings; the four `VolumeSize` sub-objects are their size strings. */
  datatype PersistenceSpec = PersistenceSpec(
    enabled: bool, storageClassName: Option<string>, accessMode: string, retainOnDelete: bool,
    anylogSize: string, blockchainSize: string, dataSize: string, scriptsSize: string)

  datatype GeneralSpec = GeneralSpec(
    nodeName: string, companyName: string, licenseKey: Option<string>, licenseKeySecretRef: Option<SecretRef>,
    disableCli: bool, remoteCli: bool)

  datatype GeolocationSpec = GeolocationSpec(location: Option<string>, country: Option<string>, state: Option<string>, city: Option<string>)

  datatype NetworkingSpec = NetworkingSpec(
    serviceType: string, overlayIp: Option<string>, serverPort: int, restPort: int, brokerPort: Option<int>,
    tcpBind: bool, restBind: bool, brokerBind: bool, configName: Option<string>, nicType: Option<string>,
    tcpThreads: int, restTimeout: int, restThreads: int, brokerThreads: int)

  datatype NoSqlSpec = NoSqlSpec(
    enabled: bool, dbType: string, user: Option<string>, password: Option<string>, passwordSecretRef: Option<SecretRef>,
    host: string, port: int, blobsDbms: bool, blobsReuse: bool)

  datatype DatabaseSpec = DatabaseSpec(
    dbType: string, user: Option<string>, password: Option<string>, passwordSecretRef: Option<SecretRef>,
    host: string, port: int, autocommit: bool, systemQuery: bool, memory: bool, nosql: NoSqlSpec)

  datatype BlockchainSpec = BlockchainSpec(ledgerConn: string, syncTime: string, source: string, destination: string)

  datatype PartitioningSpec = PartitioningSpec(
    enabled: bool, tableName: string, column: string, interval: string, keep: int, sync: string)

  /** The `operator` section (settings of an EdgeLake operator node). */
  datatype OperatorNodeSpec = OperatorNodeSpec(
    clusterName: string, defaultDbms: string, member: Option<string>, enableHa: bool, startDate: int, threads: int,
    partitioning: PartitioningSpec)

  datatype MqttMessageSpec = MqttMessageSpec(
    topic: Option<string>, dbms: Option<string>, table: string, timestampColumn: string, valueColumn: string,
    valueColumnType: string)

  datatype MqttSpec = MqttSpec(
    enabled: bool, broker: Option<string>, port: int, user: Option<string>, password: Option<string>,
    passwordSecretRef: Option<SecretRef>, log: bool, message: MqttMessageSpec)

  datatype OpcuaSpec = OpcuaSpec(enabled: bool, url: Option<string>, node: Option<string>, frequency: Option<string>)

  datatype EtheripSpec = EtheripSpec(enabled: bool, simulatorMode: bool, url: Option<string>, frequency: Option<string>)

  datatype AggregationsSpec = AggregationsSpec(enabled: bool, timeColumn: string, valueColumn: string)

  datatype MonitoringSpec = MonitoringSpec(enabled: bool, storeMonitoring: bool, syslogMonitoring: bool)

  datatype McpSpec = McpSpec(autostart: bool)

  datatype AdvancedSpec = AdvancedSpec(
    deployLocalScript: bool, debugMode: bool, compressFile: bool, queryPool: int, writeImmediate: bool,
    thresholdTime: string, thresholdVolume: string)

  datatype NebulaSpec = NebulaSpec(
    enabled: bool, newKeys: bool, isLighthouse: bool, cidrOverlayAddress: Option<string>, lighthouseIp: Option<string>,
    lighthouseNodeIp: Option<string>)

  /** The complete spec. `general`, `blockchain` and `operator` have no default. */
  datatype EdgeLakeOperatorSpec = EdgeLakeOperatorSpec(
    image: ImageSpec, resources: ResourcesSpec, persistence: PersistenceSpec, general: GeneralSpec,
    geolocation: GeolocationSpec, networking: NetworkingSpec, database: DatabaseSpec, blockchain: BlockchainSpec,
    operator: OperatorNodeSpec, mqtt: MqttSpec, opcua: OpcuaSpec, etherip: EtheripSpec, aggregations: AggregationsSpec,
    monitoring: MonitoringSpec, mcp: McpSpec, advanced: AdvancedSpec, nebula: NebulaSpec)

  // Section defaults: the value a section takes when the resource omits it.

  function DefaultImage(): ImageSpec {
    ImageSpec(DefaultImageRepository, DefaultImageTag, DefaultImagePullPolicy, None)
  }

  function DefaultResources(): ResourcesSpec {
    ResourcesSpec(Quantities(DefaultCpuLimit, DefaultMemoryLimit), Quantities(DefaultCpuRequest, DefaultMemoryRequest))
  }

  function DefaultPersistence(): PersistenceSpec {
    PersistenceSpec(true, None, DefaultAccessMode, true,
      DefaultPvcAnylogSize, DefaultPvcBlockchainSize, DefaultPvcDataSize, DefaultPvcScriptsSize)
  }

  function DefaultGeolocation(): GeolocationSpec {
    GeolocationSpec(None, None, None, None)
  }

  function DefaultNetworking(): NetworkingSpec {
    NetworkingSpec(DefaultServiceType, None, DefaultServerPort, DefaultRestPort, None, false, false, false, None, None,
      DefaultTcpThreads, DefaultRestTimeout, DefaultRestThreads, DefaultBrokerThreads)
  }

  function DefaultNoSql(): NoSqlSpec {
    NoSqlSpec(false, DefaultNosqlType, None, None, None, DefaultNosqlHost, DefaultNosqlPort, false, true)
  }

  function DefaultDatabase(): DatabaseSpec {
    DatabaseSpec(DefaultDbType, None, None, None, DefaultDbHost, DefaultDbPort, false, false, false, DefaultNoSql())
  }

  function DefaultPartitioning(): PartitioningSpec {
    PartitioningSpec(DefaultPartitionEnabled, DefaultPartitionTable, DefaultPartitionColumn, DefaultPartitionInterval,
      DefaultPartitionKeep, DefaultPartitionSync)
  }

  function DefaultMqttMessage(): MqttMessageSpec {
    MqttMessageSpec(None, None, "bring [table]", "bring [timestamp]", "bring [value]", "float")
  }

  function DefaultMqtt(): MqttSpec {
    MqttSpec(false, None, 1883, None, None, None, false, DefaultMqttMessage())
  }

  function DefaultAdvanced(): AdvancedSpec {
    AdvancedSpec(false, false, true, DefaultQueryPool, false, DefaultThresholdTime, DefaultThresholdVolume)
  }

  /**
   * The spec of a resource that gives only the three required sections:
   * every other section takes its default.
   */
  function MinimalSpec(general: GeneralSpec, blockchain: BlockchainSpec, operator: OperatorNodeSpec): EdgeLakeOperatorSpec {
    EdgeLakeOperatorSpec(DefaultImage(), DefaultResources(), DefaultPersistence(), general, DefaultGeolocation(),
      DefaultNetworking(), DefaultDatabase(), blockchain, operator, DefaultMqtt(), OpcuaSpec(false, None, None, None),
      EtheripSpec(false, false, None, None), AggregationsSpec(false, "insert_timestamp", "value"),
      MonitoringSpec(false, false, false), McpSpec(false), DefaultAdvanced(),
      NebulaSpec(false, false, false, None, None, None))
  }

  /**
   * What a resource giving only the required sections gets: persistence on
   * and retained, ReadWriteOnce, sizes 5Gi/1Gi/10Gi/1Gi; ports 32148 and
   * 32149, no broker port, a NodePort Service; and the partitioning defaults.
   */
  lemma MinimalSpecDefaults(general: GeneralSpec, blockchain: BlockchainSpec, clusterName: string, defaultDbms: string)
    ensures var s := MinimalSpec(general, blockchain, MinimalOperatorNode(clusterName, defaultDbms));
      && s.persistence.enabled && s.persistence.retainOnDelete && s.persistence.accessMode == "ReadWriteOnce"
      && s.persistence.anylogSize == "5Gi" && s.persistence.blockchainSize == "1Gi"
      && s.persistence.dataSize == "10Gi" && s.persistence.scriptsSize == "1Gi"
      && s.networking.serverPort == 32148 && s.networking.restPort == 32149
      && s.networking.brokerPort.None? && s.networking.serviceType == "NodePort"
      && s.operator.partitioning == PartitioningSpec(true, "*", "insert_timestamp", "14 days", 3, "1 day")
  {
  }

  /** The `operator` section as given with only its required fields. */
  function MinimalOperatorNode(clusterName: string, defaultDbms: string): OperatorNodeSpec {
    OperatorNodeSpec(clusterName, defaultDbms, None, false, DefaultStartDate, DefaultOperatorThreads, DefaultPartitioning())
  }

  // Credentials.

  /** One credential: an inline value and/or a reference to an existing Secret key. */
  datatype Credential = Credential(inline: Option<string>, ref: Option<SecretRef>)

  /** Python's `value and not ref`: an inline value that must be stored in the generated Secret. */
  predicate InlineOnly(c: Credential) {
    TruthyStr(c.inline) && c.ref.None?
  }

  function DbCredential(s: EdgeLakeOperatorSpec): Credential {
    Credential(s.database.password, s.database.passwordSecretRef)
  }

  function NosqlCredential(s: EdgeLakeOperatorSpec): Credential {
    Credential(s.database.nosql.password, s.database.nosql.passwordSecretRef)
  }

  function MqttCredential(s: EdgeLakeOperatorSpec): Credential {
    Credential(s.mqtt.password, s.mqtt.passwordSecretRef)
  }

  function LicenseCredential(s: EdgeLakeOperatorSpec): Credential {
    Credential(s.general.licenseKey, s.general.licenseKeySecretRef)
  }

  /** The four credentials, in the order every consumer visits them. */
  function Credentials(s: EdgeLakeOperatorSpec): (cs: seq<Credential>)
    ensures |cs| == 4
  {
    [DbCredential(s), NosqlCredential(s), MqttCredential(s), LicenseCredential(s)]
  }

  /** `has_inline_secrets`: some credential has an inline value and no reference. */
  predicate HasInlineSecrets(s: EdgeLakeOperatorSpec) {
    InlineOnly(DbCredential(s)) || InlineOnly(NosqlCredential(s)) || InlineOnly(MqttCredential(s))
      || InlineOnly(LicenseCredential(s))
  }

  /** `has_inline_secrets` holds exactly when one of the four credentials is inline-only. */
  lemma HasInlineSecretsIff(s: EdgeLakeOperatorSpec)
    ensures HasInlineSecrets(s) <==> exists i | 0 <= i < 4 :: InlineOnly(Credentials(s)[i])
  {
    var cs := Credentials(s);
    if HasInlineSecrets(s) {
      if InlineOnly(cs[0]) { assert InlineOnly(cs[0]); }
      else if InlineOnly(cs[1]) { assert InlineOnly(cs[1]); }
      else if InlineOnly(cs[2]) { assert InlineOnly(cs[2]); }
      else { assert InlineOnly(cs[3]); }
    }
  }

  /** A credential backed by a reference never counts as inline, whatever its inline value. */
  lemma RefsOnlyHaveNoInlineSecrets(s: EdgeLakeOperatorSpec)
    requires forall i | 0 <= i < 4 :: Credentials(s)[i].ref.Some?
    ensures !HasInlineSecrets(s)
  {
    var cs := Credentials(s);
    assert cs[0].ref.Some? && cs[1].ref.Some? && cs[2].ref.Some? && cs[3].ref.Some?;
  }

  // Field constraints enforced while the resource is parsed.

  predicate IsLedgerHostChar(c: char) {
    ('a' <= c <= 'z') || ('A' <= c <= 'Z') || ('0' <= c <= '9') || c == '.' || c == '-'
  }

  predicate AllLedgerHostChars(s: string) {
    forall i :: 0 <= i < |s| ==> IsLedgerHostChar(s[i])
  }

  /** `s` splits at index `k` into a non-empty host, a ':' and non-empty decimal digits. */
  predicate LedgerSplitAt(s: string, k: int) {
    0 < k < |s| - 1 && s[k] == ':' && AllLedgerHostChars(s[..k]) && AllDigits(s[k + 1..])
  }

  /** The whole string is `host:digits` (the pattern `^[a-zA-Z0-9.-]+:[0-9]+$` matched against all of it). */
  predicate IsLedgerForm(s: string) {
    exists k | 0 <= k < |s| :: LedgerSplitAt(s, k)
  }

  predicate PortInRange(p: int) {
    1 <= p <= 65535
  }

  /**
   * The constraints the parser checks before any handler code runs: the four
   * required names are non-empty, the ports are in 1..65535 (the broker port
   * only when given), and `ledgerConn` has the `host:digits` form (the parser's
   * pattern engine anchors `$` at the very end of the string).
   */
  predicate WellFormed(s: EdgeLakeOperatorSpec) {
    |s.general.nodeName| >= 1 && |s.general.companyName| >= 1
    && |s.operator.clusterName| >= 1 && |s.operator.defaultDbms| >= 1
    && PortInRange(s.networking.serverPort) && PortInRange(s.networking.restPort)
    && (s.networking.brokerPort.Some? ==> PortInRange(s.networking.brokerPort.value))
    && IsLedgerForm(s.blockchain.ledgerConn)
  }

  /** On a well-formed spec a given broker port is never 0, so it is truthy exactly when it is given. */
  lemma WellFormedBrokerTruthy(s: EdgeLakeOperatorSpec)
    requires WellFormed(s)
    ensures TruthyInt(s.networking.brokerPort) <==> s.networking.brokerPort.Some?
  {
  }
}
