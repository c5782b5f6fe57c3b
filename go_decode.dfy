/**
 * How the Go client's JSON decoder fills a copy from a server reply when it
 * decodes into an object that already holds values (the reply of
 * `r.Status().Update`). Every field of the spec is `omitempty`, so a reply
 * leaves out each empty string, zero number, false flag, empty map or list
 * and nil section; such a field keeps what the copy held. A field the reply
 * sets overwrites the copy's, a section present in the reply is decoded
 * into the copy's section (or into a fresh empty one when the copy's is
 * nil), a map present in the reply adds its keys to the copy's, and a list
 * present in the reply replaces the copy's.
 */
module GoDecode {
  import opened Common
  import opened GoTypes
  import opened GoDefaults

  function DecodeStr(into: string, reply: string): string {
    if reply == "" then into else reply
  }

  function DecodeInt(into: int, reply: int): int {
    if reply == 0 then into else reply
  }

  function DecodeSeq<T>(into: seq<T>, reply: seq<T>): seq<T> {
    if reply == [] then into else reply
  }

  /** Every key of `r` is in `a`, with the same value. */
  predicate MapKept(r: map<string, string>, a: map<string, string>) {
    forall k | k in r :: k in a && a[k] == r[k]
  }

  // One decoder per section: what the copy holds after the reply's section
  // has been decoded into it.

  function DecodeMetadata(into: MetadataSpec, reply: MetadataSpec): MetadataSpec {
    MetadataSpec(DecodeStr(into.hostname, reply.hostname), DecodeStr(into.appName, reply.appName),
      DecodeStr(into.serviceName, reply.serviceName), DecodeStr(into.configMapName, reply.configMapName),
      into.nodeSelector + reply.nodeSelector, DecodeStr(into.serviceType, reply.serviceType))
  }

  function DecodeMetadataPtr(into: Option<MetadataSpec>, reply: Option<MetadataSpec>): Option<MetadataSpec> {
    if reply.None? then into else if into.None? then reply else Some(DecodeMetadata(into.value, reply.value))
  }

  function DecodeImage(into: ImageSpec, reply: ImageSpec): ImageSpec {
    ImageSpec(DecodeStr(into.secretName, reply.secretName), DecodeStr(into.repository, reply.repository),
      DecodeStr(into.tag, reply.tag), DecodeStr(into.pullPolicy, reply.pullPolicy))
  }

  function DecodeImagePtr(into: Option<ImageSpec>, reply: Option<ImageSpec>): Option<ImageSpec> {
    if reply.None? then into else if into.None? then reply else Some(DecodeImage(into.value, reply.value))
  }

  function DecodeVolume(into: VolumeSpec, reply: VolumeSpec): VolumeSpec {
    VolumeSpec(DecodeStr(into.size, reply.size))
  }

  function DecodeVolumePtr(into: Option<VolumeSpec>, reply: Option<VolumeSpec>): Option<VolumeSpec> {
    if reply.None? then into else if into.None? then reply else Some(DecodeVolume(into.value, reply.value))
  }

  function DecodePersistence(into: PersistenceSpec, reply: PersistenceSpec): PersistenceSpec {
    PersistenceSpec(into.enabled || reply.enabled, DecodeStr(into.storageClassName, reply.storageClassName),
      DecodeStr(into.accessMode, reply.accessMode), DecodeVolumePtr(into.anylog, reply.anylog),
      DecodeVolumePtr(into.blockchain, reply.blockchain), DecodeVolumePtr(into.data, reply.data),
      DecodeVolumePtr(into.scripts, reply.scripts))
  }

  function DecodePersistencePtr(into: Option<PersistenceSpec>, reply: Option<PersistenceSpec>): Option<PersistenceSpec> {
    if reply.None? then into else if into.None? then reply else Some(DecodePersistence(into.value, reply.value))
  }

  function DecodeResources(into: ResourceRequirements, reply: ResourceRequirements): ResourceRequirements {
    ResourceRequirements(into.limits + reply.limits, into.requests + reply.requests)
  }

  function DecodeResourcesPtr(into: Option<ResourceRequirements>, reply: Option<ResourceRequirements>): Option<ResourceRequirements> {
    if reply.None? then into else if into.None? then reply else Some(DecodeResources(into.value, reply.value))
  }

  function DecodeDirectories(into: DirectoriesConfig, reply: DirectoriesConfig): DirectoriesConfig {
    DirectoriesConfig(DecodeStr(into.anylogPath, reply.anylogPath), DecodeStr(into.localScripts, reply.localScripts),
      DecodeStr(into.testDir, reply.testDir))
  }

  function DecodeDirectoriesPtr(into: Option<DirectoriesConfig>, reply: Option<DirectoriesConfig>): Option<DirectoriesConfig> {
    if reply.None? then into else if into.None? then reply else Some(DecodeDirectories(into.value, reply.value))
  }

  function DecodeGeneral(into: GeneralConfig, reply: GeneralConfig): GeneralConfig {
    GeneralConfig(DecodeStr(into.licenseKey, reply.licenseKey), DecodeStr(into.nodeType, reply.nodeType),
      DecodeStr(into.nodeName, reply.nodeName), DecodeStr(into.companyName, reply.companyName),
      into.disableCli || reply.disableCli, into.remoteCli || reply.remoteCli)
  }

  function DecodeGeneralPtr(into: Option<GeneralConfig>, reply: Option<GeneralConfig>): Option<GeneralConfig> {
    if reply.None? then into else if into.None? then reply else Some(DecodeGeneral(into.value, reply.value))
  }

  function DecodeGeolocation(into: GeolocationConfig, reply: GeolocationConfig): GeolocationConfig {
    GeolocationConfig(DecodeStr(into.location, reply.location), DecodeStr(into.country, reply.country),
      DecodeStr(into.state, reply.state), DecodeStr(into.city, reply.city))
  }

  function DecodeGeolocationPtr(into: Option<GeolocationConfig>, reply: Option<GeolocationConfig>): Option<GeolocationConfig> {
    if reply.None? then into else if into.None? then reply else Some(DecodeGeolocation(into.value, reply.value))
  }

  function DecodeNetworking(into: NetworkingConfig, reply: NetworkingConfig): NetworkingConfig {
    NetworkingConfig(DecodeStr(into.overlayIp, reply.overlayIp), DecodeInt(into.serverPort, reply.serverPort),
      DecodeInt(into.restPort, reply.restPort), DecodeInt(into.brokerPort, reply.brokerPort),
      into.tcpBind || reply.tcpBind, into.restBind || reply.restBind, into.brokerBind || reply.brokerBind,
      DecodeStr(into.configName, reply.configName), DecodeStr(into.nicType, reply.nicType),
      DecodeInt(into.tcpThreads, reply.tcpThreads), DecodeInt(into.restTimeout, reply.restTimeout),
      DecodeInt(into.restThreads, reply.restThreads), DecodeInt(into.brokerThreads, reply.brokerThreads))
  }

  function DecodeNetworkingPtr(into: Option<NetworkingConfig>, reply: Option<NetworkingConfig>): Option<NetworkingConfig> {
    if reply.None? then into else if into.None? then reply else Some(DecodeNetworking(into.value, reply.value))
  }

  function DecodeDatabase(into: DatabaseConfig, reply: DatabaseConfig): DatabaseConfig {
    DatabaseConfig(DecodeStr(into.dbType, reply.dbType), DecodeStr(into.dbUser, reply.dbUser),
      DecodeStr(into.dbPasswd, reply.dbPasswd), DecodeStr(into.dbIp, reply.dbIp),
      DecodeInt(into.dbPort, reply.dbPort), into.autocommit || reply.autocommit,
      into.enableNoSql || reply.enableNoSql, into.systemQuery || reply.systemQuery, into.memory || reply.memory,
      DecodeStr(into.noSqlType, reply.noSqlType), DecodeStr(into.noSqlUser, reply.noSqlUser),
      DecodeStr(into.noSqlPasswd, reply.noSqlPasswd), DecodeStr(into.noSqlIp, reply.noSqlIp),
      DecodeInt(into.noSqlPort, reply.noSqlPort), into.blobsDbms || reply.blobsDbms,
      into.blobsReuse || reply.blobsReuse)
  }

  function DecodeDatabasePtr(into: Option<DatabaseConfig>, reply: Option<DatabaseConfig>): Option<DatabaseConfig> {
    if reply.None? then into else if into.None? then reply else Some(DecodeDatabase(into.value, reply.value))
  }

  function DecodeBlockchain(into: BlockchainConfig, reply: BlockchainConfig): BlockchainConfig {
    BlockchainConfig(DecodeStr(into.ledgerConn, reply.ledgerConn), DecodeStr(into.syncTime, reply.syncTime),
      DecodeStr(into.blockchainSync, reply.blockchainSync), DecodeStr(into.source, reply.source),
      DecodeStr(into.destination, reply.destination))
  }

  function DecodeBlockchainPtr(into: Option<BlockchainConfig>, reply: Option<BlockchainConfig>): Option<BlockchainConfig> {
    if reply.None? then into else if into.None? then reply else Some(DecodeBlockchain(into.value, reply.value))
  }

  function DecodeOperator(into: OperatorConfig, reply: OperatorConfig): OperatorConfig {
    OperatorConfig(DecodeStr(into.clusterName, reply.clusterName), DecodeStr(into.defaultDbms, reply.defaultDbms),
      DecodeStr(into.member, reply.member), into.enableHa || reply.enableHa,
      DecodeInt(into.startDate, reply.startDate), DecodeInt(into.threads, reply.threads),
      into.enablePartitions || reply.enablePartitions, DecodeStr(into.tableName, reply.tableName),
      DecodeStr(into.partitionColumn, reply.partitionColumn),
      DecodeStr(into.partitionInterval, reply.partitionInterval), DecodeInt(into.partitionKeep, reply.partitionKeep),
      DecodeStr(into.partitionSync, reply.partitionSync))
  }

  function DecodeOperatorPtr(into: Option<OperatorConfig>, reply: Option<OperatorConfig>): Option<OperatorConfig> {
    if reply.None? then into else if into.None? then reply else Some(DecodeOperator(into.value, reply.value))
  }

  function DecodeMqtt(into: MqttConfig, reply: MqttConfig): MqttConfig {
    MqttConfig(into.enable || reply.enable, DecodeStr(into.broker, reply.broker), DecodeInt(into.port, reply.port),
      DecodeStr(into.user, reply.user), DecodeStr(into.passwd, reply.passwd), into.log || reply.log,
      DecodeStr(into.msgTopic, reply.msgTopic), DecodeStr(into.msgDbms, reply.msgDbms),
      DecodeStr(into.msgTable, reply.msgTable), DecodeStr(into.msgTimestampColumn, reply.msgTimestampColumn),
      DecodeStr(into.msgValueColumn, reply.msgValueColumn),
      DecodeStr(into.msgValueColumnType, reply.msgValueColumnType))
  }

  function DecodeMqttPtr(into: Option<MqttConfig>, reply: Option<MqttConfig>): Option<MqttConfig> {
    if reply.None? then into else if into.None? then reply else Some(DecodeMqtt(into.value, reply.value))
  }

  function DecodeOpcua(into: OpcuaConfig, reply: OpcuaConfig): OpcuaConfig {
    OpcuaConfig(into.enable || reply.enable, DecodeStr(into.url, reply.url), DecodeStr(into.node, reply.node),
      DecodeStr(into.frequency, reply.frequency))
  }

  function DecodeOpcuaPtr(into: Option<OpcuaConfig>, reply: Option<OpcuaConfig>): Option<OpcuaConfig> {
    if reply.None? then into else if into.None? then reply else Some(DecodeOpcua(into.value, reply.value))
  }

  function DecodeEtherIp(into: EtherIpConfig, reply: EtherIpConfig): EtherIpConfig {
    EtherIpConfig(into.enable || reply.enable, into.simulatorMode || reply.simulatorMode,
      DecodeStr(into.url, reply.url), DecodeStr(into.frequency, reply.frequency))
  }

  function DecodeEtherIpPtr(into: Option<EtherIpConfig>, reply: Option<EtherIpConfig>): Option<EtherIpConfig> {
    if reply.None? then into else if into.None? then reply else Some(DecodeEtherIp(into.value, reply.value))
  }

  function DecodeAggregations(into: AggregationsConfig, reply: AggregationsConfig): AggregationsConfig {
    AggregationsConfig(into.enable || reply.enable, DecodeStr(into.timeColumn, reply.timeColumn),
      DecodeStr(into.valueColumn, reply.valueColumn))
  }

  function DecodeAggregationsPtr(into: Option<AggregationsConfig>, reply: Option<AggregationsConfig>): Option<AggregationsConfig> {
    if reply.None? then into else if into.None? then reply else Some(DecodeAggregations(into.value, reply.value))
  }

  function DecodeMonitoring(into: MonitoringConfig, reply: MonitoringConfig): MonitoringConfig {
    MonitoringConfig(into.monitorNodes || reply.monitorNodes, into.storeMonitoring || reply.storeMonitoring,
      into.syslogMonitoring || reply.syslogMonitoring)
  }

  function DecodeMonitoringPtr(into: Option<MonitoringConfig>, reply: Option<MonitoringConfig>): Option<MonitoringConfig> {
    if reply.None? then into else if into.None? then reply else Some(DecodeMonitoring(into.value, reply.value))
  }

  function DecodeMcp(into: McpConfig, reply: McpConfig): McpConfig {
    McpConfig(into.autostart || reply.autostart)
  }

  function DecodeMcpPtr(into: Option<McpConfig>, reply: Option<McpConfig>): Option<McpConfig> {
    if reply.None? then into else if into.None? then reply else Some(DecodeMcp(into.value, reply.value))
  }

  function DecodeAdvanced(into: AdvancedConfig, reply: AdvancedConfig): AdvancedConfig {
    AdvancedConfig(into.deployLocalScript || reply.deployLocalScript, into.debugMode || reply.debugMode,
      into.compressFile || reply.compressFile, DecodeInt(into.queryPool, reply.queryPool),
      into.writeImmediate || reply.writeImmediate, DecodeStr(into.thresholdTime, reply.thresholdTime),
      DecodeStr(into.thresholdVolume, reply.thresholdVolume))
  }

  function DecodeAdvancedPtr(into: Option<AdvancedConfig>, reply: Option<AdvancedConfig>): Option<AdvancedConfig> {
    if reply.None? then into else if into.None? then reply else Some(DecodeAdvanced(into.value, reply.value))
  }

  function DecodeNebula(into: NebulaConfig, reply: NebulaConfig): NebulaConfig {
    NebulaConfig(into.enable || reply.enable, into.newKeys || reply.newKeys, into.isLighthouse || reply.isLighthouse,
      DecodeStr(into.cidrOverlayAddress, reply.cidrOverlayAddress), DecodeStr(into.lighthouseIp, reply.lighthouseIp),
      DecodeStr(into.lighthouseNodeIp, reply.lighthouseNodeIp))
  }

  function DecodeNebulaPtr(into: Option<NebulaConfig>, reply: Option<NebulaConfig>): Option<NebulaConfig> {
    if reply.None? then into else if into.None? then reply else Some(DecodeNebula(into.value, reply.value))
  }

  function DecodeNodeConfigs(into: NodeConfigsSpec, reply: NodeConfigsSpec): NodeConfigsSpec {
    NodeConfigsSpec(DecodeDirectoriesPtr(into.directories, reply.directories),
      DecodeGeneralPtr(into.general, reply.general), DecodeGeolocationPtr(into.geolocation, reply.geolocation),
      DecodeNetworkingPtr(into.networking, reply.networking), DecodeDatabasePtr(into.database, reply.database),
      DecodeBlockchainPtr(into.blockchain, reply.blockchain), DecodeOperatorPtr(into.operator, reply.operator),
      DecodeMqttPtr(into.mqtt, reply.mqtt), DecodeOpcuaPtr(into.opcua, reply.opcua),
      DecodeEtherIpPtr(into.etherip, reply.etherip), DecodeAggregationsPtr(into.aggregations, reply.aggregations),
      DecodeMonitoringPtr(into.monitoring, reply.monitoring), DecodeMcpPtr(into.mcp, reply.mcp),
      DecodeAdvancedPtr(into.advanced, reply.advanced), DecodeNebulaPtr(into.nebula, reply.nebula))
  }

  function DecodeNodeConfigsPtr(into: Option<NodeConfigsSpec>, reply: Option<NodeConfigsSpec>): Option<NodeConfigsSpec> {
    if reply.None? then into else if into.None? then reply else Some(DecodeNodeConfigs(into.value, reply.value))
  }

  function DecodeSpec(into: EdgeLakeOperatorSpec, reply: EdgeLakeOperatorSpec): EdgeLakeOperatorSpec {
    EdgeLakeOperatorSpec(DecodeMetadataPtr(into.metadata, reply.metadata), DecodeImagePtr(into.image, reply.image),
      DecodePersistencePtr(into.persistence, reply.persistence), DecodeResourcesPtr(into.resources, reply.resources),
      DecodeNodeConfigsPtr(into.nodeConfigs, reply.nodeConfigs))
  }

  function DecodeStatus(into: EdgeLakeOperatorStatus, reply: EdgeLakeOperatorStatus): EdgeLakeOperatorStatus {
    EdgeLakeOperatorStatus(DecodeSeq(into.conditions, reply.conditions), DecodeStr(into.phase, reply.phase),
      DecodeInt(into.observedGeneration, reply.observedGeneration), into.ready || reply.ready,
      DecodeStr(into.deploymentName, reply.deploymentName), DecodeStr(into.serviceName, reply.serviceName),
      DecodeStr(into.configMapName, reply.configMapName))
  }

  /**
   * The whole reply decoded into the copy: finalizers, spec and status.
   * The name, namespace, generation and deletion mark are left as the copy
   * has them (see `GoCluster.StatusReply`).
   */
  function Decode(into: EdgeLakeOperator, reply: EdgeLakeOperator): EdgeLakeOperator {
    into.(finalizers := DecodeSeq(into.finalizers, reply.finalizers), spec := DecodeSpec(into.spec, reply.spec),
          status := DecodeStatus(into.status, reply.status))
  }

  // `Holds…(a, r)`: `a` holds every field that `r` sets.

  predicate HoldsMetadata(a: MetadataSpec, r: MetadataSpec) {
    StrKept(r.hostname, a.hostname) && StrKept(r.appName, a.appName) && StrKept(r.serviceName, a.serviceName) &&
    StrKept(r.configMapName, a.configMapName) && MapKept(r.nodeSelector, a.nodeSelector) &&
    StrKept(r.serviceType, a.serviceType)
  }

  predicate HoldsMetadataPtr(a: Option<MetadataSpec>, r: Option<MetadataSpec>) {
    r.Some? ==> a.Some? && HoldsMetadata(a.value, r.value)
  }

  predicate HoldsImage(a: ImageSpec, r: ImageSpec) {
    StrKept(r.secretName, a.secretName) && StrKept(r.repository, a.repository) && StrKept(r.tag, a.tag) &&
    StrKept(r.pullPolicy, a.pullPolicy)
  }

  predicate HoldsImagePtr(a: Option<ImageSpec>, r: Option<ImageSpec>) {
    r.Some? ==> a.Some? && HoldsImage(a.value, r.value)
  }

  predicate HoldsVolume(a: VolumeSpec, r: VolumeSpec) {
    StrKept(r.size, a.size)
  }

  predicate HoldsVolumePtr(a: Option<VolumeSpec>, r: Option<VolumeSpec>) {
    r.Some? ==> a.Some? && HoldsVolume(a.value, r.value)
  }

  predicate HoldsPersistence(a: PersistenceSpec, r: PersistenceSpec) {
    (r.enabled ==> a.enabled) && StrKept(r.storageClassName, a.storageClassName) &&
    StrKept(r.accessMode, a.accessMode) && HoldsVolumePtr(a.anylog, r.anylog) &&
    HoldsVolumePtr(a.blockchain, r.blockchain) && HoldsVolumePtr(a.data, r.data) &&
    HoldsVolumePtr(a.scripts, r.scripts)
  }

  predicate HoldsPersistencePtr(a: Option<PersistenceSpec>, r: Option<PersistenceSpec>) {
    r.Some? ==> a.Some? && HoldsPersistence(a.value, r.value)
  }

  predicate HoldsResources(a: ResourceRequirements, r: ResourceRequirements) {
    MapKept(r.limits, a.limits) && MapKept(r.requests, a.requests)
  }

  predicate HoldsResourcesPtr(a: Option<ResourceRequirements>, r: Option<ResourceRequirements>) {
    r.Some? ==> a.Some? && HoldsResources(a.value, r.value)
  }

  predicate HoldsDirectories(a: DirectoriesConfig, r: DirectoriesConfig) {
    StrKept(r.anylogPath, a.anylogPath) && StrKept(r.localScripts, a.localScripts) && StrKept(r.testDir, a.testDir)
  }

  predicate HoldsDirectoriesPtr(a: Option<DirectoriesConfig>, r: Option<DirectoriesConfig>) {
    r.Some? ==> a.Some? && HoldsDirectories(a.value, r.value)
  }

  predicate HoldsGeneral(a: GeneralConfig, r: GeneralConfig) {
    StrKept(r.licenseKey, a.licenseKey) && StrKept(r.nodeType, a.nodeType) && StrKept(r.nodeName, a.nodeName) &&
    StrKept(r.companyName, a.companyName) && (r.disableCli ==> a.disableCli) && (r.remoteCli ==> a.remoteCli)
  }

  predicate HoldsGeneralPtr(a: Option<GeneralConfig>, r: Option<GeneralConfig>) {
    r.Some? ==> a.Some? && HoldsGeneral(a.value, r.value)
  }

  predicate HoldsGeolocation(a: GeolocationConfig, r: GeolocationConfig) {
    StrKept(r.location, a.location) && StrKept(r.country, a.country) && StrKept(r.state, a.state) &&
    StrKept(r.city, a.city)
  }

  predicate HoldsGeolocationPtr(a: Option<GeolocationConfig>, r: Option<GeolocationConfig>) {
    r.Some? ==> a.Some? && HoldsGeolocation(a.value, r.value)
  }

  predicate HoldsNetworking(a: NetworkingConfig, r: NetworkingConfig) {
    StrKept(r.overlayIp, a.overlayIp) && IntKept(r.serverPort, a.serverPort) && IntKept(r.restPort, a.restPort) &&
    IntKept(r.brokerPort, a.brokerPort) && (r.tcpBind ==> a.tcpBind) && (r.restBind ==> a.restBind) &&
    (r.brokerBind ==> a.brokerBind) && StrKept(r.configName, a.configName) && StrKept(r.nicType, a.nicType) &&
    IntKept(r.tcpThreads, a.tcpThreads) && IntKept(r.restTimeout, a.restTimeout) &&
    IntKept(r.restThreads, a.restThreads) && IntKept(r.brokerThreads, a.brokerThreads)
  }

  predicate HoldsNetworkingPtr(a: Option<NetworkingConfig>, r: Option<NetworkingConfig>) {
    r.Some? ==> a.Some? && HoldsNetworking(a.value, r.value)
  }

  predicate HoldsDatabase(a: DatabaseConfig, r: DatabaseConfig) {
    StrKept(r.dbType, a.dbType) && StrKept(r.dbUser, a.dbUser) && StrKept(r.dbPasswd, a.dbPasswd) &&
    StrKept(r.dbIp, a.dbIp) && IntKept(r.dbPort, a.dbPort) && (r.autocommit ==> a.autocommit) &&
    (r.enableNoSql ==> a.enableNoSql) && (r.systemQuery ==> a.systemQuery) && (r.memory ==> a.memory) &&
    StrKept(r.noSqlType, a.noSqlType) && StrKept(r.noSqlUser, a.noSqlUser) &&
    StrKept(r.noSqlPasswd, a.noSqlPasswd) && StrKept(r.noSqlIp, a.noSqlIp) && IntKept(r.noSqlPort, a.noSqlPort) &&
    (r.blobsDbms ==> a.blobsDbms) && (r.blobsReuse ==> a.blobsReuse)
  }

  predicate HoldsDatabasePtr(a: Option<DatabaseConfig>, r: Option<DatabaseConfig>) {
    r.Some? ==> a.Some? && HoldsDatabase(a.value, r.value)
  }

  predicate HoldsBlockchain(a: BlockchainConfig, r: BlockchainConfig) {
    StrKept(r.ledgerConn, a.ledgerConn) && StrKept(r.syncTime, a.syncTime) &&
    StrKept(r.blockchainSync, a.blockchainSync) && StrKept(r.source, a.source) &&
    StrKept(r.destination, a.destination)
  }

  predicate HoldsBlockchainPtr(a: Option<BlockchainConfig>, r: Option<BlockchainConfig>) {
    r.Some? ==> a.Some? && HoldsBlockchain(a.value, r.value)
  }

  predicate HoldsOperator(a: OperatorConfig, r: OperatorConfig) {
    StrKept(r.clusterName, a.clusterName) && StrKept(r.defaultDbms, a.defaultDbms) && StrKept(r.member, a.member) &&
    (r.enableHa ==> a.enableHa) && IntKept(r.startDate, a.startDate) && IntKept(r.threads, a.threads) &&
    (r.enablePartitions ==> a.enablePartitions) && StrKept(r.tableName, a.tableName) &&
    StrKept(r.partitionColumn, a.partitionColumn) && StrKept(r.partitionInterval, a.partitionInterval) &&
    IntKept(r.partitionKeep, a.partitionKeep) && StrKept(r.partitionSync, a.partitionSync)
  }

  predicate HoldsOperatorPtr(a: Option<OperatorConfig>, r: Option<OperatorConfig>) {
    r.Some? ==> a.Some? && HoldsOperator(a.value, r.value)
  }

  predicate HoldsMqtt(a: MqttConfig, r: MqttConfig) {
    (r.enable ==> a.enable) && StrKept(r.broker, a.broker) && IntKept(r.port, a.port) && StrKept(r.user, a.user) &&
    StrKept(r.passwd, a.passwd) && (r.log ==> a.log) && StrKept(r.msgTopic, a.msgTopic) &&
    StrKept(r.msgDbms, a.msgDbms) && StrKept(r.msgTable, a.msgTable) &&
    StrKept(r.msgTimestampColumn, a.msgTimestampColumn) && StrKept(r.msgValueColumn, a.msgValueColumn) &&
    StrKept(r.msgValueColumnType, a.msgValueColumnType)
  }

  predicate HoldsMqttPtr(a: Option<MqttConfig>, r: Option<MqttConfig>) {
    r.Some? ==> a.Some? && HoldsMqtt(a.value, r.value)
  }

  predicate HoldsOpcua(a: OpcuaConfig, r: OpcuaConfig) {
    (r.enable ==> a.enable) && StrKept(r.url, a.url) && StrKept(r.node, a.node) && StrKept(r.frequency, a.frequency)
  }

  predicate HoldsOpcuaPtr(a: Option<OpcuaConfig>, r: Option<OpcuaConfig>) {
    r.Some? ==> a.Some? && HoldsOpcua(a.value, r.value)
  }

  predicate HoldsEtherIp(a: EtherIpConfig, r: EtherIpConfig) {
    (r.enable ==> a.enable) && (r.simulatorMode ==> a.simulatorMode) && StrKept(r.url, a.url) &&
    StrKept(r.frequency, a.frequency)
  }

  predicate HoldsEtherIpPtr(a: Option<EtherIpConfig>, r: Option<EtherIpConfig>) {
    r.Some? ==> a.Some? && HoldsEtherIp(a.value, r.value)
  }

  predicate HoldsAggregations(a: AggregationsConfig, r: AggregationsConfig) {
    (r.enable ==> a.enable) && StrKept(r.timeColumn, a.timeColumn) && StrKept(r.valueColumn, a.valueColumn)
  }

  predicate HoldsAggregationsPtr(a: Option<AggregationsConfig>, r: Option<AggregationsConfig>) {
    r.Some? ==> a.Some? && HoldsAggregations(a.value, r.value)
  }

  predicate HoldsMonitoring(a: MonitoringConfig, r: MonitoringConfig) {
    (r.monitorNodes ==> a.monitorNodes) && (r.storeMonitoring ==> a.storeMonitoring) &&
    (r.syslogMonitoring ==> a.syslogMonitoring)
  }

  predicate HoldsMonitoringPtr(a: Option<MonitoringConfig>, r: Option<MonitoringConfig>) {
    r.Some? ==> a.Some? && HoldsMonitoring(a.value, r.value)
  }

  predicate HoldsMcp(a: McpConfig, r: McpConfig) {
    (r.autostart ==> a.autostart)
  }

  predicate HoldsMcpPtr(a: Option<McpConfig>, r: Option<McpConfig>) {
    r.Some? ==> a.Some? && HoldsMcp(a.value, r.value)
  }

  predicate HoldsAdvanced(a: AdvancedConfig, r: AdvancedConfig) {
    (r.deployLocalScript ==> a.deployLocalScript) && (r.debugMode ==> a.debugMode) &&
    (r.compressFile ==> a.compressFile) && IntKept(r.queryPool, a.queryPool) &&
    (r.writeImmediate ==> a.writeImmediate) && StrKept(r.thresholdTime, a.thresholdTime) &&
    StrKept(r.thresholdVolume, a.thresholdVolume)
  }

  predicate HoldsAdvancedPtr(a: Option<AdvancedConfig>, r: Option<AdvancedConfig>) {
    r.Some? ==> a.Some? && HoldsAdvanced(a.value, r.value)
  }

  predicate HoldsNebula(a: NebulaConfig, r: NebulaConfig) {
    (r.enable ==> a.enable) && (r.newKeys ==> a.newKeys) && (r.isLighthouse ==> a.isLighthouse) &&
    StrKept(r.cidrOverlayAddress, a.cidrOverlayAddress) && StrKept(r.lighthouseIp, a.lighthouseIp) &&
    StrKept(r.lighthouseNodeIp, a.lighthouseNodeIp)
  }

  predicate HoldsNebulaPtr(a: Option<NebulaConfig>, r: Option<NebulaConfig>) {
    r.Some? ==> a.Some? && HoldsNebula(a.value, r.value)
  }

  predicate HoldsNodeConfigs(a: NodeConfigsSpec, r: NodeConfigsSpec) {
    HoldsDirectoriesPtr(a.directories, r.directories) && HoldsGeneralPtr(a.general, r.general) &&
    HoldsGeolocationPtr(a.geolocation, r.geolocation) && HoldsNetworkingPtr(a.networking, r.networking) &&
    HoldsDatabasePtr(a.database, r.database) && HoldsBlockchainPtr(a.blockchain, r.blockchain) &&
    HoldsOperatorPtr(a.operator, r.operator) && HoldsMqttPtr(a.mqtt, r.mqtt) && HoldsOpcuaPtr(a.opcua, r.opcua) &&
    HoldsEtherIpPtr(a.etherip, r.etherip) && HoldsAggregationsPtr(a.aggregations, r.aggregations) &&
    HoldsMonitoringPtr(a.monitoring, r.monitoring) && HoldsMcpPtr(a.mcp, r.mcp) &&
    HoldsAdvancedPtr(a.advanced, r.advanced) && HoldsNebulaPtr(a.nebula, r.nebula)
  }

  predicate HoldsNodeConfigsPtr(a: Option<NodeConfigsSpec>, r: Option<NodeConfigsSpec>) {
    r.Some? ==> a.Some? && HoldsNodeConfigs(a.value, r.value)
  }

  predicate HoldsSpec(a: EdgeLakeOperatorSpec, r: EdgeLakeOperatorSpec) {
    HoldsMetadataPtr(a.metadata, r.metadata) && HoldsImagePtr(a.image, r.image) &&
    HoldsPersistencePtr(a.persistence, r.persistence) && HoldsResourcesPtr(a.resources, r.resources) &&
    HoldsNodeConfigsPtr(a.nodeConfigs, r.nodeConfigs)
  }

  // Each section obeys the two laws the whole spec does (below).

  lemma MapMergeLaws(into: map<string, string>, reply: map<string, string>)
    ensures MapKept(reply, into + reply)
    ensures MapKept(reply, into) ==> into + reply == into
  {
    if MapKept(reply, into) {
      assert (into + reply).Keys == into.Keys;
    }
  }

  lemma DecodeMetadataLaws(into: Option<MetadataSpec>, reply: Option<MetadataSpec>)
    ensures HoldsMetadataPtr(DecodeMetadataPtr(into, reply), reply)
    ensures HoldsMetadataPtr(into, reply) ==> DecodeMetadataPtr(into, reply) == into
  {
    if into.Some? && reply.Some? {
      MapMergeLaws(into.value.nodeSelector, reply.value.nodeSelector);
    }
  }

  lemma DecodeImageLaws(into: Option<ImageSpec>, reply: Option<ImageSpec>)
    ensures HoldsImagePtr(DecodeImagePtr(into, reply), reply)
    ensures HoldsImagePtr(into, reply) ==> DecodeImagePtr(into, reply) == into
  {
  }

  lemma DecodeVolumeLaws(into: Option<VolumeSpec>, reply: Option<VolumeSpec>)
    ensures HoldsVolumePtr(DecodeVolumePtr(into, reply), reply)
    ensures HoldsVolumePtr(into, reply) ==> DecodeVolumePtr(into, reply) == into
  {
  }

  lemma DecodePersistenceLaws(into: Option<PersistenceSpec>, reply: Option<PersistenceSpec>)
    ensures HoldsPersistencePtr(DecodePersistencePtr(into, reply), reply)
    ensures HoldsPersistencePtr(into, reply) ==> DecodePersistencePtr(into, reply) == into
  {
    if into.Some? && reply.Some? {
      DecodeVolumeLaws(into.value.anylog, reply.value.anylog);
      DecodeVolumeLaws(into.value.blockchain, reply.value.blockchain);
      DecodeVolumeLaws(into.value.data, reply.value.data);
      DecodeVolumeLaws(into.value.scripts, reply.value.scripts);
    }
  }

  lemma DecodeResourcesLaws(into: Option<ResourceRequirements>, reply: Option<ResourceRequirements>)
    ensures HoldsResourcesPtr(DecodeResourcesPtr(into, reply), reply)
    ensures HoldsResourcesPtr(into, reply) ==> DecodeResourcesPtr(into, reply) == into
  {
    if into.Some? && reply.Some? {
      MapMergeLaws(into.value.limits, reply.value.limits);
      MapMergeLaws(into.value.requests, reply.value.requests);
    }
  }

  lemma DecodeDirectoriesLaws(into: Option<DirectoriesConfig>, reply: Option<DirectoriesConfig>)
    ensures HoldsDirectoriesPtr(DecodeDirectoriesPtr(into, reply), reply)
    ensures HoldsDirectoriesPtr(into, reply) ==> DecodeDirectoriesPtr(into, reply) == into
  {
  }

  lemma DecodeGeneralLaws(into: Option<GeneralConfig>, reply: Option<GeneralConfig>)
    ensures HoldsGeneralPtr(DecodeGeneralPtr(into, reply), reply)
    ensures HoldsGeneralPtr(into, reply) ==> DecodeGeneralPtr(into, reply) == into
  {
  }

  lemma DecodeGeolocationLaws(into: Option<GeolocationConfig>, reply: Option<GeolocationConfig>)
    ensures HoldsGeolocationPtr(DecodeGeolocationPtr(into, reply), reply)
    ensures HoldsGeolocationPtr(into, reply) ==> DecodeGeolocationPtr(into, reply) == into
  {
  }

  lemma DecodeNetworkingLaws(into: Option<NetworkingConfig>, reply: Option<NetworkingConfig>)
    ensures HoldsNetworkingPtr(DecodeNetworkingPtr(into, reply), reply)
    ensures HoldsNetworkingPtr(into, reply) ==> DecodeNetworkingPtr(into, reply) == into
  {
  }

  lemma DecodeDatabaseLaws(into: Option<DatabaseConfig>, reply: Option<DatabaseConfig>)
    ensures HoldsDatabasePtr(DecodeDatabasePtr(into, reply), reply)
    ensures HoldsDatabasePtr(into, reply) ==> DecodeDatabasePtr(into, reply) == into
  {
  }

  lemma DecodeBlockchainLaws(into: Option<BlockchainConfig>, reply: Option<BlockchainConfig>)
    ensures HoldsBlockchainPtr(DecodeBlockchainPtr(into, reply), reply)
    ensures HoldsBlockchainPtr(into, reply) ==> DecodeBlockchainPtr(into, reply) == into
  {
  }

  lemma DecodeOperatorLaws(into: Option<OperatorConfig>, reply: Option<OperatorConfig>)
    ensures HoldsOperatorPtr(DecodeOperatorPtr(into, reply), reply)
    ensures HoldsOperatorPtr(into, reply) ==> DecodeOperatorPtr(into, reply) == into
  {
  }

  lemma DecodeMqttLaws(into: Option<MqttConfig>, reply: Option<MqttConfig>)
    ensures HoldsMqttPtr(DecodeMqttPtr(into, reply), reply)
    ensures HoldsMqttPtr(into, reply) ==> DecodeMqttPtr(into, reply) == into
  {
  }

  lemma DecodeOpcuaLaws(into: Option<OpcuaConfig>, reply: Option<OpcuaConfig>)
    ensures HoldsOpcuaPtr(DecodeOpcuaPtr(into, reply), reply)
    ensures HoldsOpcuaPtr(into, reply) ==> DecodeOpcuaPtr(into, reply) == into
  {
  }

  lemma DecodeEtherIpLaws(into: Option<EtherIpConfig>, reply: Option<EtherIpConfig>)
    ensures HoldsEtherIpPtr(DecodeEtherIpPtr(into, reply), reply)
    ensures HoldsEtherIpPtr(into, reply) ==> DecodeEtherIpPtr(into, reply) == into
  {
  }

  lemma DecodeAggregationsLaws(into: Option<AggregationsConfig>, reply: Option<AggregationsConfig>)
    ensures HoldsAggregationsPtr(DecodeAggregationsPtr(into, reply), reply)
    ensures HoldsAggregationsPtr(into, reply) ==> DecodeAggregationsPtr(into, reply) == into
  {
  }

  lemma DecodeMonitoringLaws(into: Option<MonitoringConfig>, reply: Option<MonitoringConfig>)
    ensures HoldsMonitoringPtr(DecodeMonitoringPtr(into, reply), reply)
    ensures HoldsMonitoringPtr(into, reply) ==> DecodeMonitoringPtr(into, reply) == into
  {
  }

  lemma DecodeMcpLaws(into: Option<McpConfig>, reply: Option<McpConfig>)
    ensures HoldsMcpPtr(DecodeMcpPtr(into, reply), reply)
    ensures HoldsMcpPtr(into, reply) ==> DecodeMcpPtr(into, reply) == into
  {
  }

  lemma DecodeAdvancedLaws(into: Option<AdvancedConfig>, reply: Option<AdvancedConfig>)
    ensures HoldsAdvancedPtr(DecodeAdvancedPtr(into, reply), reply)
    ensures HoldsAdvancedPtr(into, reply) ==> DecodeAdvancedPtr(into, reply) == into
  {
  }

  lemma DecodeNebulaLaws(into: Option<NebulaConfig>, reply: Option<NebulaConfig>)
    ensures HoldsNebulaPtr(DecodeNebulaPtr(into, reply), reply)
    ensures HoldsNebulaPtr(into, reply) ==> DecodeNebulaPtr(into, reply) == into
  {
  }

  lemma DecodeNodeConfigsLaws(into: Option<NodeConfigsSpec>, reply: Option<NodeConfigsSpec>)
    ensures HoldsNodeConfigsPtr(DecodeNodeConfigsPtr(into, reply), reply)
    ensures HoldsNodeConfigsPtr(into, reply) ==> DecodeNodeConfigsPtr(into, reply) == into
  {
    if into.Some? && reply.Some? {
      DecodeDirectoriesLaws(into.value.directories, reply.value.directories);
      DecodeGeneralLaws(into.value.general, reply.value.general);
      DecodeGeolocationLaws(into.value.geolocation, reply.value.geolocation);
      DecodeNetworkingLaws(into.value.networking, reply.value.networking);
      DecodeDatabaseLaws(into.value.database, reply.value.database);
      DecodeBlockchainLaws(into.value.blockchain, reply.value.blockchain);
      DecodeOperatorLaws(into.value.operator, reply.value.operator);
      DecodeMqttLaws(into.value.mqtt, reply.value.mqtt);
      DecodeOpcuaLaws(into.value.opcua, reply.value.opcua);
      DecodeEtherIpLaws(into.value.etherip, reply.value.etherip);
      DecodeAggregationsLaws(into.value.aggregations, reply.value.aggregations);
      DecodeMonitoringLaws(into.value.monitoring, reply.value.monitoring);
      DecodeMcpLaws(into.value.mcp, reply.value.mcp);
      DecodeAdvancedLaws(into.value.advanced, reply.value.advanced);
      DecodeNebulaLaws(into.value.nebula, reply.value.nebula);
    }
  }

  /** After decoding, the copy holds every field the reply sets, whatever it held before. */
  lemma DecodeHoldsReply(into: EdgeLakeOperatorSpec, reply: EdgeLakeOperatorSpec)
    ensures HoldsSpec(DecodeSpec(into, reply), reply)
  {
    DecodeMetadataLaws(into.metadata, reply.metadata);
    DecodeImageLaws(into.image, reply.image);
    DecodePersistenceLaws(into.persistence, reply.persistence);
    DecodeResourcesLaws(into.resources, reply.resources);
    DecodeNodeConfigsLaws(into.nodeConfigs, reply.nodeConfigs);
  }

  /** A copy that already holds every field the reply sets is left exactly as it was. */
  lemma DecodeKeepsHeld(into: EdgeLakeOperatorSpec, reply: EdgeLakeOperatorSpec)
    requires HoldsSpec(into, reply)
    ensures DecodeSpec(into, reply) == into
  {
    DecodeMetadataLaws(into.metadata, reply.metadata);
    DecodeImageLaws(into.image, reply.image);
    DecodePersistenceLaws(into.persistence, reply.persistence);
    DecodeResourcesLaws(into.resources, reply.resources);
    DecodeNodeConfigsLaws(into.nodeConfigs, reply.nodeConfigs);
  }

  /** Defaulting in memory keeps every field the stored spec sets. */
  lemma DefaultedHoldsStored(s: EdgeLakeOperatorSpec, crName: string)
    ensures HoldsSpec(Defaulted(s, crName), s)
  {
    if s.nodeConfigs.Some? {
      NodeConfigDefaultsHold(s.nodeConfigs.value);
    }
  }

  lemma NodeConfigDefaultsHold(nc: NodeConfigsSpec)
    ensures HoldsNodeConfigs(NodeConfigDefaults(nc), nc)
  {
    DirectoriesDefaultsHold(nc.directories);
    GeneralDefaultsHold(nc.general);
    NetworkingDefaultsHold(nc.networking);
    DatabaseDefaultsHold(nc.database);
    BlockchainDefaultsHold(nc.blockchain);
    OperatorDefaultsHold(nc.operator);
    MqttDefaultsHold(nc.mqtt);
    AggregationsDefaultsHold(nc.aggregations);
    AdvancedDefaultsHold(nc.advanced);
  }

  lemma DirectoriesDefaultsHold(o: Option<DirectoriesConfig>)
    ensures HoldsDirectoriesPtr(Some(DirectoriesDefaults(o)), o)
  {
  }

  lemma GeneralDefaultsHold(o: Option<GeneralConfig>)
    ensures HoldsGeneralPtr(Some(GeneralDefaults(o)), o)
  {
  }

  lemma NetworkingDefaultsHold(o: Option<NetworkingConfig>)
    ensures HoldsNetworkingPtr(Some(NetworkingDefaults(o)), o)
  {
  }

  lemma DatabaseDefaultsHold(o: Option<DatabaseConfig>)
    ensures HoldsDatabasePtr(Some(DatabaseDefaults(o)), o)
  {
  }

  lemma BlockchainDefaultsHold(o: Option<BlockchainConfig>)
    ensures HoldsBlockchainPtr(Some(BlockchainDefaults(o)), o)
  {
  }

  lemma OperatorDefaultsHold(o: Option<OperatorConfig>)
    ensures HoldsOperatorPtr(Some(OperatorDefaults(o)), o)
  {
  }

  lemma MqttDefaultsHold(o: Option<MqttConfig>)
    ensures HoldsMqttPtr(Some(MqttDefaults(o)), o)
  {
  }

  lemma AggregationsDefaultsHold(o: Option<AggregationsConfig>)
    ensures HoldsAggregationsPtr(Some(AggregationsDefaults(o)), o)
  {
  }

  lemma AdvancedDefaultsHold(o: Option<AdvancedConfig>)
    ensures HoldsAdvancedPtr(Some(AdvancedDefaults(o)), o)
  {
  }

  /** The stored spec decoded into its defaulted copy gives back the defaulted copy. */
  lemma DecodeIntoDefaulted(s: EdgeLakeOperatorSpec, crName: string)
    ensures DecodeSpec(Defaulted(s, crName), s) == Defaulted(s, crName)
  {
    DefaultedHoldsStored(s, crName);
    DecodeKeepsHeld(Defaulted(s, crName), s);
  }
}
