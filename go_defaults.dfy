/**
 * `setDefaults` and `setNodeConfigDefaults` of the Go controller: every nil
 * section that has defaults is allocated, and every zero-valued field of
 * it is given its default. A field that is already set is never touched,
 * and Geolocation, OPC-UA, EtherIP, Monitoring, MCP and Nebula have no
 * defaults at all.
 */
module GoDefaults {
  import opened Common
  import opened GoTypes

  const DefaultHostname := "edgelake-operator"
  const ServiceNameSuffix := "-service"
  const ConfigMapNameSuffix := "-configmap"
  const NodePortType := "NodePort"
  const DefaultRepository := "anylogco/edgelake-network"
  const DefaultTag := "1.3.2500"
  const IfNotPresent := "IfNotPresent"
  const ReadWriteOnce := "ReadWriteOnce"
  const AnylogSize := "5Gi"
  const BlockchainSize := "1Gi"
  const DataSize := "10Gi"
  const ScriptsSize := "1Gi"
  const DefaultAnylogPath := "/app"
  const DefaultLocalScripts := "/app/deployment-scripts/node-deployment"
  const DefaultTestDir := "/app/deployment-scripts/tests"
  const DefaultNodeType := "operator"
  const DefaultCompanyName := "New Company"
  const DefaultServerPort := 32148
  const DefaultRestPort := 32149
  const DefaultThreads := 6
  const DefaultRestTimeout := 30
  const DefaultDbType := "sqlite"
  const Localhost := "127.0.0.1"
  const DefaultDbPort := 5432
  const DefaultNoSqlType := "mongo"
  const DefaultNoSqlPort := 27017
  const DefaultLedgerConn := "127.0.0.1:32048"
  const DefaultSyncTime := "30 second"
  const DefaultSource := "master"
  const DefaultDestination := "file"
  const DefaultClusterName := "new-company-cluster1"
  const DefaultDbms := "new_company"
  const DefaultStartDate := 30
  const DefaultOperatorThreads := 3
  const DefaultTableName := "*"
  const InsertTimestamp := "insert_timestamp"
  const DefaultPartitionInterval := "14 days"
  const DefaultPartitionKeep := 3
  const DefaultPartitionSync := "1 day"
  const DefaultMqttPort := 1883
  const DefaultMsgTable := "bring [table]"
  const DefaultMsgTimestampColumn := "bring [timestamp]"
  const DefaultMsgValueColumn := "bring [value]"
  const DefaultMsgValueColumnType := "float"
  const DefaultAggregationValueColumn := "value"
  const DefaultQueryPool := 6
  const DefaultThresholdTime := "60 seconds"
  const DefaultThresholdVolume := "100KB"

  /** `if s == "" { s = d }`. */
  function OrStr(s: string, d: string): string {
    if s == "" then d else s
  }

  /** `if i == 0 { i = d }`. */
  function OrInt(i: int, d: int): int {
    if i == 0 then d else i
  }

  /** The section pointed to, or `&T{}` for a nil one. */
  function OrZero<T>(o: Option<T>, zero: T): T {
    if o.Some? then o.value else zero
  }

  // What each section looks like after defaulting.

  function MetadataDefaults(o: Option<MetadataSpec>, crName: string): MetadataSpec {
    var m := OrZero(o, EmptyMetadata);
    MetadataSpec(
      OrStr(m.hostname, DefaultHostname), OrStr(m.appName, crName),
      OrStr(m.serviceName, crName + ServiceNameSuffix), OrStr(m.configMapName, crName + ConfigMapNameSuffix),
      m.nodeSelector, OrStr(m.serviceType, NodePortType))
  }

  function ImageDefaults(o: Option<ImageSpec>): ImageSpec {
    var i := OrZero(o, EmptyImage);
    ImageSpec(i.secretName, OrStr(i.repository, DefaultRepository), OrStr(i.tag, DefaultTag), OrStr(i.pullPolicy, IfNotPresent))
  }

  /** Only a nil section gets `Enabled` and the access mode; every nil volume gets its size. */
  function PersistenceDefaults(o: Option<PersistenceSpec>): PersistenceSpec {
    var p := OrZero(o, PersistenceSpec(true, "", ReadWriteOnce, None, None, None, None));
    p.(anylog := Some(OrZero(p.anylog, VolumeSpec(AnylogSize))),
       blockchain := Some(OrZero(p.blockchain, VolumeSpec(BlockchainSize))),
       data := Some(OrZero(p.data, VolumeSpec(DataSize))),
       scripts := Some(OrZero(p.scripts, VolumeSpec(ScriptsSize))))
  }

  function DirectoriesDefaults(o: Option<DirectoriesConfig>): DirectoriesConfig {
    var d := OrZero(o, EmptyDirectories);
    DirectoriesConfig(OrStr(d.anylogPath, DefaultAnylogPath), OrStr(d.localScripts, DefaultLocalScripts), OrStr(d.testDir, DefaultTestDir))
  }

  function GeneralDefaults(o: Option<GeneralConfig>): GeneralConfig {
    var g := OrZero(o, EmptyGeneral);
    g.(nodeType := OrStr(g.nodeType, DefaultNodeType), companyName := OrStr(g.companyName, DefaultCompanyName))
  }

  function NetworkingDefaults(o: Option<NetworkingConfig>): NetworkingConfig {
    var n := OrZero(o, EmptyNetworking);
    n.(serverPort := OrInt(n.serverPort, DefaultServerPort), restPort := OrInt(n.restPort, DefaultRestPort),
       tcpThreads := OrInt(n.tcpThreads, DefaultThreads), restTimeout := OrInt(n.restTimeout, DefaultRestTimeout),
       restThreads := OrInt(n.restThreads, DefaultThreads), brokerThreads := OrInt(n.brokerThreads, DefaultThreads))
  }

  function DatabaseDefaults(o: Option<DatabaseConfig>): DatabaseConfig {
    var d := OrZero(o, EmptyDatabase);
    d.(dbType := OrStr(d.dbType, DefaultDbType), dbIp := OrStr(d.dbIp, Localhost), dbPort := OrInt(d.dbPort, DefaultDbPort),
       noSqlType := OrStr(d.noSqlType, DefaultNoSqlType), noSqlIp := OrStr(d.noSqlIp, Localhost),
       noSqlPort := OrInt(d.noSqlPort, DefaultNoSqlPort))
  }

  function BlockchainDefaults(o: Option<BlockchainConfig>): BlockchainConfig {
    var b := OrZero(o, EmptyBlockchain);
    BlockchainConfig(OrStr(b.ledgerConn, DefaultLedgerConn), OrStr(b.syncTime, DefaultSyncTime),
      OrStr(b.blockchainSync, DefaultSyncTime), OrStr(b.source, DefaultSource), OrStr(b.destination, DefaultDestination))
  }

  function OperatorDefaults(o: Option<OperatorConfig>): OperatorConfig {
    var p := OrZero(o, EmptyOperator);
    p.(clusterName := OrStr(p.clusterName, DefaultClusterName), defaultDbms := OrStr(p.defaultDbms, DefaultDbms),
       startDate := OrInt(p.startDate, DefaultStartDate), threads := OrInt(p.threads, DefaultOperatorThreads),
       tableName := OrStr(p.tableName, DefaultTableName), partitionColumn := OrStr(p.partitionColumn, InsertTimestamp),
       partitionInterval := OrStr(p.partitionInterval, DefaultPartitionInterval),
       partitionKeep := OrInt(p.partitionKeep, DefaultPartitionKeep), partitionSync := OrStr(p.partitionSync, DefaultPartitionSync))
  }

  function MqttDefaults(o: Option<MqttConfig>): MqttConfig {
    var q := OrZero(o, EmptyMqtt);
    q.(port := OrInt(q.port, DefaultMqttPort), msgDbms := OrStr(q.msgDbms, DefaultDbms),
       msgTable := OrStr(q.msgTable, DefaultMsgTable), msgTimestampColumn := OrStr(q.msgTimestampColumn, DefaultMsgTimestampColumn),
       msgValueColumn := OrStr(q.msgValueColumn, DefaultMsgValueColumn),
       msgValueColumnType := OrStr(q.msgValueColumnType, DefaultMsgValueColumnType))
  }

  function AggregationsDefaults(o: Option<AggregationsConfig>): AggregationsConfig {
    var a := OrZero(o, EmptyAggregations);
    a.(timeColumn := OrStr(a.timeColumn, InsertTimestamp), valueColumn := OrStr(a.valueColumn, DefaultAggregationValueColumn))
  }

  function AdvancedDefaults(o: Option<AdvancedConfig>): AdvancedConfig {
    var a := OrZero(o, EmptyAdvanced);
    a.(queryPool := OrInt(a.queryPool, DefaultQueryPool), thresholdTime := OrStr(a.thresholdTime, DefaultThresholdTime),
       thresholdVolume := OrStr(a.thresholdVolume, DefaultThresholdVolume))
  }

  /** `setNodeConfigDefaults`: nine sections defaulted, the other six left as they are. */
  function NodeConfigDefaults(nc: NodeConfigsSpec): NodeConfigsSpec {
    nc.(directories := Some(DirectoriesDefaults(nc.directories)), general := Some(GeneralDefaults(nc.general)),
        networking := Some(NetworkingDefaults(nc.networking)), database := Some(DatabaseDefaults(nc.database)),
        blockchain := Some(BlockchainDefaults(nc.blockchain)), operator := Some(OperatorDefaults(nc.operator)),
        mqtt := Some(MqttDefaults(nc.mqtt)), aggregations := Some(AggregationsDefaults(nc.aggregations)),
        advanced := Some(AdvancedDefaults(nc.advanced)))
  }

  /** `setDefaults` on a resource named `crName`. */
  function Defaulted(s: EdgeLakeOperatorSpec, crName: string): EdgeLakeOperatorSpec {
    EdgeLakeOperatorSpec(
      Some(MetadataDefaults(s.metadata, crName)), Some(ImageDefaults(s.image)), Some(PersistenceDefaults(s.persistence)),
      s.resources, Some(NodeConfigDefaults(OrZero(s.nodeConfigs, EmptyNodeConfigs))))
  }

  // What "fully defaulted" means: every defaulted section non-nil, every
  // defaulted string non-empty, every defaulted number non-zero.

  predicate MetadataComplete(m: MetadataSpec) {
    m.hostname != "" && m.appName != "" && m.serviceName != "" && m.configMapName != "" && m.serviceType != ""
  }

  predicate ImageComplete(i: ImageSpec) {
    i.repository != "" && i.tag != "" && i.pullPolicy != ""
  }

  predicate PersistenceComplete(p: PersistenceSpec) {
    p.anylog.Some? && p.blockchain.Some? && p.data.Some? && p.scripts.Some?
  }

  predicate DirectoriesComplete(d: DirectoriesConfig) {
    d.anylogPath != "" && d.localScripts != "" && d.testDir != ""
  }

  predicate GeneralComplete(g: GeneralConfig) {
    g.nodeType != "" && g.companyName != ""
  }

  predicate NetworkingComplete(n: NetworkingConfig) {
    n.serverPort != 0 && n.restPort != 0 && n.tcpThreads != 0 && n.restTimeout != 0 && n.restThreads != 0 && n.brokerThreads != 0
  }

  predicate DatabaseComplete(d: DatabaseConfig) {
    d.dbType != "" && d.dbIp != "" && d.dbPort != 0 && d.noSqlType != "" && d.noSqlIp != "" && d.noSqlPort != 0
  }

  predicate BlockchainComplete(b: BlockchainConfig) {
    b.ledgerConn != "" && b.syncTime != "" && b.blockchainSync != "" && b.source != "" && b.destination != ""
  }

  predicate OperatorComplete(p: OperatorConfig) {
    && p.clusterName != "" && p.defaultDbms != "" && p.startDate != 0 && p.threads != 0 && p.tableName != ""
    && p.partitionColumn != "" && p.partitionInterval != "" && p.partitionKeep != 0 && p.partitionSync != ""
  }

  predicate MqttComplete(q: MqttConfig) {
    && q.port != 0 && q.msgDbms != "" && q.msgTable != "" && q.msgTimestampColumn != ""
    && q.msgValueColumn != "" && q.msgValueColumnType != ""
  }

  predicate AggregationsComplete(a: AggregationsConfig) {
    a.timeColumn != "" && a.valueColumn != ""
  }

  predicate AdvancedComplete(a: AdvancedConfig) {
    a.queryPool != 0 && a.thresholdTime != "" && a.thresholdVolume != ""
  }

  predicate NodeConfigsComplete(nc: NodeConfigsSpec) {
    && nc.directories.Some? && DirectoriesComplete(nc.directories.value)
    && nc.general.Some? && GeneralComplete(nc.general.value)
    && nc.networking.Some? && NetworkingComplete(nc.networking.value)
    && nc.database.Some? && DatabaseComplete(nc.database.value)
    && nc.blockchain.Some? && BlockchainComplete(nc.blockchain.value)
    && nc.operator.Some? && OperatorComplete(nc.operator.value)
    && nc.mqtt.Some? && MqttComplete(nc.mqtt.value)
    && nc.aggregations.Some? && AggregationsComplete(nc.aggregations.value)
    && nc.advanced.Some? && AdvancedComplete(nc.advanced.value)
  }

  predicate Complete(s: EdgeLakeOperatorSpec) {
    && s.metadata.Some? && MetadataComplete(s.metadata.value)
    && s.image.Some? && ImageComplete(s.image.value)
    && s.persistence.Some? && PersistenceComplete(s.persistence.value)
    && s.nodeConfigs.Some? && NodeConfigsComplete(s.nodeConfigs.value)
  }

  // "Never overwrites": every field set in the input keeps its value.

  predicate StrKept(a: string, b: string) { a != "" ==> b == a }
  predicate IntKept(a: int, b: int) { a != 0 ==> b == a }

  predicate MetadataKept(o: Option<MetadataSpec>, m: MetadataSpec) {
    o.Some? ==>
      && StrKept(o.value.hostname, m.hostname) && StrKept(o.value.appName, m.appName)
      && StrKept(o.value.serviceName, m.serviceName) && StrKept(o.value.configMapName, m.configMapName)
      && StrKept(o.value.serviceType, m.serviceType) && m.nodeSelector == o.value.nodeSelector
  }

  predicate ImageKept(o: Option<ImageSpec>, i: ImageSpec) {
    o.Some? ==>
      && i.secretName == o.value.secretName && StrKept(o.value.repository, i.repository)
      && StrKept(o.value.tag, i.tag) && StrKept(o.value.pullPolicy, i.pullPolicy)
  }

  predicate VolumeKept(o: Option<VolumeSpec>, v: Option<VolumeSpec>) { o.Some? ==> v == o }

  predicate PersistenceKept(o: Option<PersistenceSpec>, p: PersistenceSpec) {
    o.Some? ==>
      && p.enabled == o.value.enabled && p.accessMode == o.value.accessMode && p.storageClassName == o.value.storageClassName
      && VolumeKept(o.value.anylog, p.anylog) && VolumeKept(o.value.blockchain, p.blockchain)
      && VolumeKept(o.value.data, p.data) && VolumeKept(o.value.scripts, p.scripts)
  }

  /** Every set field of a section survives; the fields without a default are copied whether set or not. */
  predicate SectionsKept(o: NodeConfigsSpec, nc: NodeConfigsSpec) {
    && (o.directories.Some? ==> nc.directories.Some? && var a, b := o.directories.value, nc.directories.value;
          StrKept(a.anylogPath, b.anylogPath) && StrKept(a.localScripts, b.localScripts) && StrKept(a.testDir, b.testDir))
    && (o.general.Some? ==> nc.general.Some? && var a, b := o.general.value, nc.general.value;
          b == a.(nodeType := b.nodeType, companyName := b.companyName)
          && StrKept(a.nodeType, b.nodeType) && StrKept(a.companyName, b.companyName))
    && (o.networking.Some? ==> nc.networking.Some? && var a, b := o.networking.value, nc.networking.value;
          b == a.(serverPort := b.serverPort, restPort := b.restPort, tcpThreads := b.tcpThreads,
                  restTimeout := b.restTimeout, restThreads := b.restThreads, brokerThreads := b.brokerThreads)
          && IntKept(a.serverPort, b.serverPort) && IntKept(a.restPort, b.restPort)
          && IntKept(a.tcpThreads, b.tcpThreads) && IntKept(a.restTimeout, b.restTimeout)
          && IntKept(a.restThreads, b.restThreads) && IntKept(a.brokerThreads, b.brokerThreads))
    && (o.database.Some? ==> nc.database.Some? && var a, b := o.database.value, nc.database.value;
          b == a.(dbType := b.dbType, dbIp := b.dbIp, dbPort := b.dbPort, noSqlType := b.noSqlType,
                  noSqlIp := b.noSqlIp, noSqlPort := b.noSqlPort)
          && StrKept(a.dbType, b.dbType) && StrKept(a.dbIp, b.dbIp) && IntKept(a.dbPort, b.dbPort)
          && StrKept(a.noSqlType, b.noSqlType) && StrKept(a.noSqlIp, b.noSqlIp) && IntKept(a.noSqlPort, b.noSqlPort))
    && (o.blockchain.Some? ==> nc.blockchain.Some? && var a, b := o.blockchain.value, nc.blockchain.value;
          StrKept(a.ledgerConn, b.ledgerConn) && StrKept(a.syncTime, b.syncTime)
          && StrKept(a.blockchainSync, b.blockchainSync) && StrKept(a.source, b.source)
          && StrKept(a.destination, b.destination))
    && (o.operator.Some? ==> nc.operator.Some? && var a, b := o.operator.value, nc.operator.value;
          b == a.(clusterName := b.clusterName, defaultDbms := b.defaultDbms, startDate := b.startDate,
                  threads := b.threads, tableName := b.tableName, partitionColumn := b.partitionColumn,
                  partitionInterval := b.partitionInterval, partitionKeep := b.partitionKeep,
                  partitionSync := b.partitionSync)
          && StrKept(a.clusterName, b.clusterName) && StrKept(a.defaultDbms, b.defaultDbms)
          && IntKept(a.startDate, b.startDate) && IntKept(a.threads, b.threads) && StrKept(a.tableName, b.tableName)
          && StrKept(a.partitionColumn, b.partitionColumn) && StrKept(a.partitionInterval, b.partitionInterval)
          && IntKept(a.partitionKeep, b.partitionKeep) && StrKept(a.partitionSync, b.partitionSync))
    && (o.mqtt.Some? ==> nc.mqtt.Some? && var a, b := o.mqtt.value, nc.mqtt.value;
          b == a.(port := b.port, msgDbms := b.msgDbms, msgTable := b.msgTable,
                  msgTimestampColumn := b.msgTimestampColumn, msgValueColumn := b.msgValueColumn,
                  msgValueColumnType := b.msgValueColumnType)
          && IntKept(a.port, b.port) && StrKept(a.msgDbms, b.msgDbms) && StrKept(a.msgTable, b.msgTable)
          && StrKept(a.msgTimestampColumn, b.msgTimestampColumn) && StrKept(a.msgValueColumn, b.msgValueColumn)
          && StrKept(a.msgValueColumnType, b.msgValueColumnType))
    && (o.aggregations.Some? ==> nc.aggregations.Some? && var a, b := o.aggregations.value, nc.aggregations.value;
          b.enable == a.enable && StrKept(a.timeColumn, b.timeColumn) && StrKept(a.valueColumn, b.valueColumn))
    && (o.advanced.Some? ==> nc.advanced.Some? && var a, b := o.advanced.value, nc.advanced.value;
          b == a.(queryPool := b.queryPool, thresholdTime := b.thresholdTime, thresholdVolume := b.thresholdVolume)
          && IntKept(a.queryPool, b.queryPool) && StrKept(a.thresholdTime, b.thresholdTime)
          && StrKept(a.thresholdVolume, b.thresholdVolume))
  }

  // Properties of defaulting.

  /** After `setDefaults` every defaulted section, string and number is set (a Kubernetes name is never empty). */
  lemma DefaultedIsComplete(s: EdgeLakeOperatorSpec, crName: string)
    requires crName != ""
    ensures Complete(Defaulted(s, crName))
  {
    var nc := OrZero(s.nodeConfigs, EmptyNodeConfigs);
    assert DirectoriesComplete(DirectoriesDefaults(nc.directories)) && GeneralComplete(GeneralDefaults(nc.general));
    assert NetworkingComplete(NetworkingDefaults(nc.networking)) && DatabaseComplete(DatabaseDefaults(nc.database));
    assert BlockchainComplete(BlockchainDefaults(nc.blockchain)) && OperatorComplete(OperatorDefaults(nc.operator));
    assert MqttComplete(MqttDefaults(nc.mqtt)) && AggregationsComplete(AggregationsDefaults(nc.aggregations));
    assert AdvancedComplete(AdvancedDefaults(nc.advanced));
  }

  /** A complete spec is left exactly as it is. */
  lemma CompleteIsFixed(s: EdgeLakeOperatorSpec, crName: string)
    requires Complete(s)
    ensures Defaulted(s, crName) == s
  {
    var nc := s.nodeConfigs.value;
    assert NodeConfigDefaults(nc) == nc;
    assert PersistenceDefaults(s.persistence) == s.persistence.value;
  }

  /** `setDefaults` is idempotent. */
  lemma DefaultsIdempotent(s: EdgeLakeOperatorSpec, crName: string)
    requires crName != ""
    ensures Defaulted(Defaulted(s, crName), crName) == Defaulted(s, crName)
  {
    DefaultedIsComplete(s, crName);
    CompleteIsFixed(Defaulted(s, crName), crName);
  }

  /** `setDefaults` never overwrites a set field, and `Resources` is never touched. */
  lemma DefaultsKeepSetFields(s: EdgeLakeOperatorSpec, crName: string)
    ensures var d := Defaulted(s, crName);
      && MetadataKept(s.metadata, d.metadata.value) && ImageKept(s.image, d.image.value)
      && PersistenceKept(s.persistence, d.persistence.value) && d.resources == s.resources
      && (s.nodeConfigs.Some? ==> SectionsKept(s.nodeConfigs.value, d.nodeConfigs.value))
  {
    if s.nodeConfigs.Some? {
      NodeConfigDefaultsKeep(s.nodeConfigs.value);
    }
  }

  lemma NodeConfigDefaultsKeep(nc: NodeConfigsSpec)
    ensures SectionsKept(nc, NodeConfigDefaults(nc))
  {
  }

  /** Geolocation, OPC-UA, EtherIP, Monitoring, MCP and Nebula are never defaulted: they stay nil if nil. */
  lemma UndefaultedSections(s: EdgeLakeOperatorSpec, crName: string)
    ensures var o, nc := OrZero(s.nodeConfigs, EmptyNodeConfigs), Defaulted(s, crName).nodeConfigs.value;
      && nc.geolocation == o.geolocation && nc.opcua == o.opcua && nc.etherip == o.etherip
      && nc.monitoring == o.monitoring && nc.mcp == o.mcp && nc.nebula == o.nebula
  {
  }

  /** Unset metadata names derive from the resource's name; the service type defaults to NodePort. */
  lemma MetadataFromName(s: EdgeLakeOperatorSpec, crName: string)
    requires s.metadata.None?
    ensures Defaulted(s, crName).metadata == Some(MetadataSpec(
      DefaultHostname, crName, crName + ServiceNameSuffix, crName + ConfigMapNameSuffix, map[], NodePortType))
  {
  }

  /**
   * `Enabled` (true) and ReadWriteOnce are set only when the whole
   * persistence section is nil; an existing section keeps its `Enabled`
   * and access mode, even when false and empty. Each nil volume gets its
   * default size.
   */
  lemma PersistenceDefaulting(s: EdgeLakeOperatorSpec, crName: string)
    ensures var p := Defaulted(s, crName).persistence.value;
      && p.enabled == (s.persistence.None? || s.persistence.value.enabled)
      && p.accessMode == (if s.persistence.None? then ReadWriteOnce else s.persistence.value.accessMode)
      && (s.persistence.None? || s.persistence.value.anylog.None? ==> p.anylog == Some(VolumeSpec(AnylogSize)))
      && (s.persistence.None? || s.persistence.value.blockchain.None? ==> p.blockchain == Some(VolumeSpec(BlockchainSize)))
      && (s.persistence.None? || s.persistence.value.data.None? ==> p.data == Some(VolumeSpec(DataSize)))
      && (s.persistence.None? || s.persistence.value.scripts.None? ==> p.scripts == Some(VolumeSpec(ScriptsSize)))
  {
  }

  // The imperative code: each section is filled field by field.

  /** `if s == "" { s = d }` on one string field. */
  method FillStr(s: string, d: string) returns (r: string)
    ensures r == OrStr(s, d)
  {
    r := s;
    if s == "" {
      r := d;
    }
  }

  /** `if i == 0 { i = d }` on one number field. */
  method FillInt(i: int, d: int) returns (r: int)
    ensures r == OrInt(i, d)
  {
    r := i;
    if i == 0 {
      r := d;
    }
  }

  method SetMetadataDefaults(o: Option<MetadataSpec>, crName: string) returns (m: MetadataSpec)
    ensures m == MetadataDefaults(o, crName)
  {
    m := if o.Some? then o.value else EmptyMetadata;
    var hostname := FillStr(m.hostname, DefaultHostname);
    m := m.(hostname := hostname);
    var appName := FillStr(m.appName, crName);
    m := m.(appName := appName);
    var serviceName := FillStr(m.serviceName, crName + ServiceNameSuffix);
    m := m.(serviceName := serviceName);
    var configMapName := FillStr(m.configMapName, crName + ConfigMapNameSuffix);
    m := m.(configMapName := configMapName);
    var serviceType := FillStr(m.serviceType, NodePortType);
    m := m.(serviceType := serviceType);
  }

  method SetImageDefaults(o: Option<ImageSpec>) returns (i: ImageSpec)
    ensures i == ImageDefaults(o)
  {
    i := if o.Some? then o.value else EmptyImage;
    var repository := FillStr(i.repository, DefaultRepository);
    i := i.(repository := repository);
    var tag := FillStr(i.tag, DefaultTag);
    i := i.(tag := tag);
    var pullPolicy := FillStr(i.pullPolicy, IfNotPresent);
    i := i.(pullPolicy := pullPolicy);
  }

  method SetPersistenceDefaults(o: Option<PersistenceSpec>) returns (p: PersistenceSpec)
    ensures p == PersistenceDefaults(o)
  {
    p := if o.Some? then o.value else PersistenceSpec(true, "", ReadWriteOnce, None, None, None, None);
    if p.anylog.None? { p := p.(anylog := Some(VolumeSpec(AnylogSize))); }
    if p.blockchain.None? { p := p.(blockchain := Some(VolumeSpec(BlockchainSize))); }
    if p.data.None? { p := p.(data := Some(VolumeSpec(DataSize))); }
    if p.scripts.None? { p := p.(scripts := Some(VolumeSpec(ScriptsSize))); }
  }

  method SetDirectoriesDefaults(o: Option<DirectoriesConfig>) returns (d: DirectoriesConfig)
    ensures d == DirectoriesDefaults(o)
  {
    d := if o.Some? then o.value else EmptyDirectories;
    var anylogPath := FillStr(d.anylogPath, DefaultAnylogPath);
    d := d.(anylogPath := anylogPath);
    var localScripts := FillStr(d.localScripts, DefaultLocalScripts);
    d := d.(localScripts := localScripts);
    var testDir := FillStr(d.testDir, DefaultTestDir);
    d := d.(testDir := testDir);
  }

  method SetGeneralDefaults(o: Option<GeneralConfig>) returns (g: GeneralConfig)
    ensures g == GeneralDefaults(o)
  {
    g := if o.Some? then o.value else EmptyGeneral;
    var nodeType := FillStr(g.nodeType, DefaultNodeType);
    g := g.(nodeType := nodeType);
    var companyName := FillStr(g.companyName, DefaultCompanyName);
    g := g.(companyName := companyName);
  }

  method SetNetworkingDefaults(o: Option<NetworkingConfig>) returns (n: NetworkingConfig)
    ensures n == NetworkingDefaults(o)
  {
    n := if o.Some? then o.value else EmptyNetworking;
    var serverPort := FillInt(n.serverPort, DefaultServerPort);
    n := n.(serverPort := serverPort);
    var restPort := FillInt(n.restPort, DefaultRestPort);
    n := n.(restPort := restPort);
    var tcpThreads := FillInt(n.tcpThreads, DefaultThreads);
    n := n.(tcpThreads := tcpThreads);
    var restTimeout := FillInt(n.restTimeout, DefaultRestTimeout);
    n := n.(restTimeout := restTimeout);
    var restThreads := FillInt(n.restThreads, DefaultThreads);
    n := n.(restThreads := restThreads);
    var brokerThreads := FillInt(n.brokerThreads, DefaultThreads);
    n := n.(brokerThreads := brokerThreads);
  }

  method SetDatabaseDefaults(o: Option<DatabaseConfig>) returns (d: DatabaseConfig)
    ensures d == DatabaseDefaults(o)
  {
    d := if o.Some? then o.value else EmptyDatabase;
    var dbType := FillStr(d.dbType, DefaultDbType);
    d := d.(dbType := dbType);
    var dbIp := FillStr(d.dbIp, Localhost);
    d := d.(dbIp := dbIp);
    var dbPort := FillInt(d.dbPort, DefaultDbPort);
    d := d.(dbPort := dbPort);
    var noSqlType := FillStr(d.noSqlType, DefaultNoSqlType);
    d := d.(noSqlType := noSqlType);
    var noSqlIp := FillStr(d.noSqlIp, Localhost);
    d := d.(noSqlIp := noSqlIp);
    var noSqlPort := FillInt(d.noSqlPort, DefaultNoSqlPort);
    d := d.(noSqlPort := noSqlPort);
  }

  method SetBlockchainDefaults(o: Option<BlockchainConfig>) returns (b: BlockchainConfig)
    ensures b == BlockchainDefaults(o)
  {
    b := if o.Some? then o.value else EmptyBlockchain;
    var ledgerConn := FillStr(b.ledgerConn, DefaultLedgerConn);
    b := b.(ledgerConn := ledgerConn);
    var syncTime := FillStr(b.syncTime, DefaultSyncTime);
    b := b.(syncTime := syncTime);
    var blockchainSync := FillStr(b.blockchainSync, DefaultSyncTime);
    b := b.(blockchainSync := blockchainSync);
    var source := FillStr(b.source, DefaultSource);
    b := b.(source := source);
    var destination := FillStr(b.destination, DefaultDestination);
    b := b.(destination := destination);
  }

  method SetOperatorDefaults(o: Option<OperatorConfig>) returns (p: OperatorConfig)
    ensures p == OperatorDefaults(o)
  {
    p := if o.Some? then o.value else EmptyOperator;
    var clusterName := FillStr(p.clusterName, DefaultClusterName);
    p := p.(clusterName := clusterName);
    var defaultDbms := FillStr(p.defaultDbms, DefaultDbms);
    p := p.(defaultDbms := defaultDbms);
    var startDate := FillInt(p.startDate, DefaultStartDate);
    p := p.(startDate := startDate);
    var threads := FillInt(p.threads, DefaultOperatorThreads);
    p := p.(threads := threads);
    var tableName := FillStr(p.tableName, DefaultTableName);
    p := p.(tableName := tableName);
    var partitionColumn := FillStr(p.partitionColumn, InsertTimestamp);
    p := p.(partitionColumn := partitionColumn);
    var partitionInterval := FillStr(p.partitionInterval, DefaultPartitionInterval);
    p := p.(partitionInterval := partitionInterval);
    var partitionKeep := FillInt(p.partitionKeep, DefaultPartitionKeep);
    p := p.(partitionKeep := partitionKeep);
    var partitionSync := FillStr(p.partitionSync, DefaultPartitionSync);
    p := p.(partitionSync := partitionSync);
  }

  method SetMqttDefaults(o: Option<MqttConfig>) returns (q: MqttConfig)
    ensures q == MqttDefaults(o)
  {
    q := if o.Some? then o.value else EmptyMqtt;
    var port := FillInt(q.port, DefaultMqttPort);
    q := q.(port := port);
    var msgDbms := FillStr(q.msgDbms, DefaultDbms);
    q := q.(msgDbms := msgDbms);
    var msgTable := FillStr(q.msgTable, DefaultMsgTable);
    q := q.(msgTable := msgTable);
    var msgTimestampColumn := FillStr(q.msgTimestampColumn, DefaultMsgTimestampColumn);
    q := q.(msgTimestampColumn := msgTimestampColumn);
    var msgValueColumn := FillStr(q.msgValueColumn, DefaultMsgValueColumn);
    q := q.(msgValueColumn := msgValueColumn);
    var msgValueColumnType := FillStr(q.msgValueColumnType, DefaultMsgValueColumnType);
    q := q.(msgValueColumnType := msgValueColumnType);
  }

  method SetAggregationsDefaults(o: Option<AggregationsConfig>) returns (a: AggregationsConfig)
    ensures a == AggregationsDefaults(o)
  {
    a := if o.Some? then o.value else EmptyAggregations;
    var timeColumn := FillStr(a.timeColumn, InsertTimestamp);
    a := a.(timeColumn := timeColumn);
    var valueColumn := FillStr(a.valueColumn, DefaultAggregationValueColumn);
    a := a.(valueColumn := valueColumn);
  }

  method SetAdvancedDefaults(o: Option<AdvancedConfig>) returns (a: AdvancedConfig)
    ensures a == AdvancedDefaults(o)
  {
    a := if o.Some? then o.value else EmptyAdvanced;
    var queryPool := FillInt(a.queryPool, DefaultQueryPool);
    a := a.(queryPool := queryPool);
    var thresholdTime := FillStr(a.thresholdTime, DefaultThresholdTime);
    a := a.(thresholdTime := thresholdTime);
    var thresholdVolume := FillStr(a.thresholdVolume, DefaultThresholdVolume);
    a := a.(thresholdVolume := thresholdVolume);
  }

  /** `setNodeConfigDefaults(nc)`: the sections in the order the source fills them. */
  method SetNodeConfigDefaults(nc0: NodeConfigsSpec) returns (nc: NodeConfigsSpec)
    ensures nc == NodeConfigDefaults(nc0)
  {
    nc := nc0;
    var directories := SetDirectoriesDefaults(nc.directories);
    nc := nc.(directories := Some(directories));
    var general := SetGeneralDefaults(nc.general);
    nc := nc.(general := Some(general));
    var networking := SetNetworkingDefaults(nc.networking);
    nc := nc.(networking := Some(networking));
    var database := SetDatabaseDefaults(nc.database);
    nc := nc.(database := Some(database));
    var blockchain := SetBlockchainDefaults(nc.blockchain);
    nc := nc.(blockchain := Some(blockchain));
    var operator := SetOperatorDefaults(nc.operator);
    nc := nc.(operator := Some(operator));
    var mqtt := SetMqttDefaults(nc.mqtt);
    nc := nc.(mqtt := Some(mqtt));
    var aggregations := SetAggregationsDefaults(nc.aggregations);
    nc := nc.(aggregations := Some(aggregations));
    var advanced := SetAdvancedDefaults(nc.advanced);
    nc := nc.(advanced := Some(advanced));
  }

  /** `setDefaults(edgelake)`: fills the spec of the fetched copy in place and nothing else. */
  method SetDefaults(edgelake: Instance)
    modifies edgelake
    ensures edgelake.spec == Defaulted(old(edgelake.spec), edgelake.name)
    ensures edgelake.finalizers == old(edgelake.finalizers) && edgelake.status == old(edgelake.status)
  {
    var metadata := SetMetadataDefaults(edgelake.spec.metadata, edgelake.name);
    edgelake.spec := edgelake.spec.(metadata := Some(metadata));
    var image := SetImageDefaults(edgelake.spec.image);
    edgelake.spec := edgelake.spec.(image := Some(image));
    var persistence := SetPersistenceDefaults(edgelake.spec.persistence);
    edgelake.spec := edgelake.spec.(persistence := Some(persistence));
    var nc := if edgelake.spec.nodeConfigs.Some? then edgelake.spec.nodeConfigs.value else EmptyNodeConfigs;
    nc := SetNodeConfigDefaults(nc);
    edgelake.spec := edgelake.spec.(nodeConfigs := Some(nc));
  }
}
