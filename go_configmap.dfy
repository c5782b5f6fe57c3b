/**
 * `BuildConfigMap` and `buildConfigMapData` of the Go operator
 * (configmap.go). The source fills `data` key by key under one nil check
 * per node-configuration section; the model gives, for every key, the value
 * the map holds when the function returns, or `None` when the key is never
 * written, and builds `data` from that table.
 */
module GoConfigMap {
  import opened Common
  import opened GoTypes
  import opened GoObjects
  import opened GoLabels

  const TrueStr := "true"
  const ProdInitType := "prod"
  const ClusterDomain := ".svc.cluster.local"

  /** `<ServiceName>.<namespace>.svc.cluster.local`, the Service's cluster DNS name. */
  function ProxyHost(md: MetadataSpec, namespace: string): string {
    md.serviceName + "." + namespace + ClusterDomain
  }

  // The variables of each group, enumerated.
  const FixedVars: seq<FixedVar> := [IS_KUBERNETES, PROXY_IP]
  const DirVars: seq<DirVar> := [ANYLOG_PATH, LOCAL_SCRIPTS, TEST_DIR]
  const GeneralVars: seq<GeneralVar> := [LICENSE_KEY, INIT_TYPE, NODE_TYPE, NODE_NAME, COMPANY_NAME, DISABLE_CLI, REMOTE_CLI]
  const GeoVars: seq<GeoVar> := [LOCATION, COUNTRY, STATE, CITY]
  const NetVars: seq<NetVar> :=
    [OVERLAY_IP, ANYLOG_SERVER_PORT, ANYLOG_REST_PORT, ANYLOG_BROKER_PORT, TCP_BIND, REST_BIND, BROKER_BIND,
     CONFIG_NAME, NIC_TYPE, TCP_THREADS, REST_TIMEOUT, REST_THREADS, BROKER_THREADS]
  const DbVars: seq<DbVar> := [DB_TYPE, DB_USER, DB_PASSWD, DB_IP, DB_PORT, AUTOCOMMIT, ENABLE_NOSQL, SYSTEM_QUERY, MEMORY]
  const NoSqlVars: seq<NoSqlVar> := [NOSQL_TYPE, NOSQL_USER, NOSQL_PASSWD, NOSQL_IP, NOSQL_PORT, BLOBS_DBMS, BLOBS_REUSE]
  const ChainVars: seq<ChainVar> := [LEDGER_CONN, SYNC_TIME, BLOCKCHAIN_SYNC, BLOCKCHAIN_SOURCE, BLOCKCHAIN_DESTINATION]
  const OperatorVars: seq<OperatorVar> := [CLUSTER_NAME, DEFAULT_DBMS, MEMBER, ENABLE_HA, START_DATE, OPERATOR_THREADS]
  const PartitionVars: seq<PartitionVar> :=
    [ENABLE_PARTITIONS, TABLE_NAME, PARTITION_COLUMN, PARTITION_INTERVAL, PARTITION_KEEP, PARTITION_SYNC]
  const MqttVars: seq<MqttVar> :=
    [ENABLE_MQTT, MQTT_BROKER, MQTT_PORT, MQTT_USER, MQTT_PASSWD, MQTT_LOG, MSG_TOPIC, MSG_DBMS, MSG_TABLE,
     MSG_TIMESTAMP_COLUMN, MSG_VALUE_COLUMN, MSG_VALUE_COLUMN_TYPE]
  const OpcuaVars: seq<OpcuaVar> := [ENABLE_OPCUA, OPCUA_URL, OPCUA_NODE, OPCUA_FREQUENCY]
  const EtherIpVars: seq<EtherIpVar> := [ENABLE_ETHERIP, SIMULATOR_MODE, ETHERIP_URL, ETHERIP_FREQUENCY]
  const AggVars: seq<AggVar> := [ENABLE_AGGREGATIONS, AGGREGATION_TIME_COLUMN, AGGREGATION_VALUE_COLUMN]
  const MonitorVars: seq<MonitorVar> := [MONITOR_NODES, STORE_MONITORING, SYSLOG_MONITORING]
  const McpVars: seq<McpVar> := [MCP_AUTOSTART]
  const AdvancedVars: seq<AdvancedVar> :=
    [DEPLOY_LOCAL_SCRIPT, DEBUG_MODE, COMPRESS_FILE, QUERY_POOL, WRITE_IMMEDIATE, THRESHOLD_TIME, THRESHOLD_VOLUME]
  const NebulaVars: seq<NebulaVar> :=
    [ENABLE_NEBULA, NEBULA_NEW_KEYS, IS_LIGHTHOUSE, CIDR_OVERLAY_ADDRESS, LIGHTHOUSE_IP, LIGHTHOUSE_NODE_IP]

  /** The variables of a group, each tagged with its group. */
  function Tagged<T>(vs: seq<T>, tag: T -> CmKey): (ks: seq<CmKey>)
    ensures |ks| == |vs| && forall i | 0 <= i < |vs| :: ks[i] == tag(vs[i])
  {
    seq(|vs|, i requires 0 <= i < |vs| => tag(vs[i]))
  }

  lemma TaggedHas<T>(vs: seq<T>, tag: T -> CmKey, v: T)
    requires v in vs
    ensures tag(v) in Tagged(vs, tag)
  {
    var i :| 0 <= i < |vs| && vs[i] == v;
    assert Tagged(vs, tag)[i] == tag(v);
  }

  // Each group's constructor as a function value.
  function FixedKey(v: FixedVar): CmKey { Fixed(v) }
  function DirKey(v: DirVar): CmKey { Dirs(v) }
  function GeneralKey(v: GeneralVar): CmKey { General(v) }
  function GeoKey(v: GeoVar): CmKey { Geo(v) }
  function NetKey(v: NetVar): CmKey { Net(v) }
  function DbKey(v: DbVar): CmKey { Db(v) }
  function NoSqlKey(v: NoSqlVar): CmKey { NoSql(v) }
  function ChainKey(v: ChainVar): CmKey { Chain(v) }
  function OpKey(v: OperatorVar): CmKey { Op(v) }
  function PartKey(v: PartitionVar): CmKey { Part(v) }
  function MqttKey(v: MqttVar): CmKey { Mqtt(v) }
  function OpcuaKey(v: OpcuaVar): CmKey { Opcua(v) }
  function EtherIpKey(v: EtherIpVar): CmKey { EtherIp(v) }
  function AggKey(v: AggVar): CmKey { Agg(v) }
  function MonitorKey(v: MonitorVar): CmKey { Monitor(v) }
  function McpKey(v: McpVar): CmKey { Mcp(v) }
  function AdvKey(v: AdvancedVar): CmKey { Adv(v) }
  function NebulaKey(v: NebulaVar): CmKey { Nebula(v) }

  /** Every key, in the order the source writes them: the fixed, directory, general, geolocation and networking keys, then the rest. */
  const AllKeys: seq<CmKey> := LeadingKeys + TrailingKeys

  const LeadingKeys: seq<CmKey> :=
    Tagged(FixedVars, FixedKey) + Tagged(DirVars, DirKey) + Tagged(GeneralVars, GeneralKey) + Tagged(GeoVars, GeoKey) +
    Tagged(NetVars, NetKey) + Tagged(DbVars, DbKey) + Tagged(NoSqlVars, NoSqlKey) + Tagged(ChainVars, ChainKey)

  const TrailingKeys: seq<CmKey> :=
    Tagged(OperatorVars, OpKey) + Tagged(PartitionVars, PartKey) + Tagged(MqttVars, MqttKey) + Tagged(OpcuaVars, OpcuaKey) +
    Tagged(EtherIpVars, EtherIpKey) + Tagged(AggVars, AggKey) + Tagged(MonitorVars, MonitorKey) + Tagged(McpVars, McpKey) +
    Tagged(AdvancedVars, AdvKey) + Tagged(NebulaVars, NebulaKey)

  /** Each group lists every variable of its type. */
  lemma FixedVarsComplete(v: FixedVar)
    ensures v in FixedVars
  {
    match v
    case IS_KUBERNETES =>
    case PROXY_IP =>
  }

  lemma DirVarsComplete(v: DirVar)
    ensures v in DirVars
  {
    match v
    case ANYLOG_PATH =>
    case LOCAL_SCRIPTS =>
    case TEST_DIR =>
  }

  lemma GeneralVarsComplete(v: GeneralVar)
    ensures v in GeneralVars
  {
    match v
    case LICENSE_KEY =>
    case INIT_TYPE =>
    case NODE_TYPE =>
    case NODE_NAME =>
    case COMPANY_NAME =>
    case DISABLE_CLI =>
    case REMOTE_CLI =>
  }

  lemma GeoVarsComplete(v: GeoVar)
    ensures v in GeoVars
  {
    match v
    case LOCATION =>
    case COUNTRY =>
    case STATE =>
    case CITY =>
  }

  lemma NetVarsComplete(v: NetVar)
    ensures v in NetVars
  {
    match v
    case OVERLAY_IP =>
    case ANYLOG_SERVER_PORT =>
    case ANYLOG_REST_PORT =>
    case ANYLOG_BROKER_PORT =>
    case TCP_BIND =>
    case REST_BIND =>
    case BROKER_BIND =>
    case CONFIG_NAME =>
    case NIC_TYPE =>
    case TCP_THREADS =>
    case REST_TIMEOUT =>
    case REST_THREADS =>
    case BROKER_THREADS =>
  }

  lemma DbVarsComplete(v: DbVar)
    ensures v in DbVars
  {
    match v
    case DB_TYPE =>
    case DB_USER =>
    case DB_PASSWD =>
    case DB_IP =>
    case DB_PORT =>
    case AUTOCOMMIT =>
    case ENABLE_NOSQL =>
    case SYSTEM_QUERY =>
    case MEMORY =>
  }

  lemma NoSqlVarsComplete(v: NoSqlVar)
    ensures v in NoSqlVars
  {
    match v
    case NOSQL_TYPE =>
    case NOSQL_USER =>
    case NOSQL_PASSWD =>
    case NOSQL_IP =>
    case NOSQL_PORT =>
    case BLOBS_DBMS =>
    case BLOBS_REUSE =>
  }

  lemma ChainVarsComplete(v: ChainVar)
    ensures v in ChainVars
  {
    match v
    case LEDGER_CONN =>
    case SYNC_TIME =>
    case BLOCKCHAIN_SYNC =>
    case BLOCKCHAIN_SOURCE =>
    case BLOCKCHAIN_DESTINATION =>
  }

  lemma OperatorVarsComplete(v: OperatorVar)
    ensures v in OperatorVars
  {
    match v
    case CLUSTER_NAME =>
    case DEFAULT_DBMS =>
    case MEMBER =>
    case ENABLE_HA =>
    case START_DATE =>
    case OPERATOR_THREADS =>
  }

  lemma PartitionVarsComplete(v: PartitionVar)
    ensures v in PartitionVars
  {
    match v
    case ENABLE_PARTITIONS =>
    case TABLE_NAME =>
    case PARTITION_COLUMN =>
    case PARTITION_INTERVAL =>
    case PARTITION_KEEP =>
    case PARTITION_SYNC =>
  }

  lemma MqttVarsComplete(v: MqttVar)
    ensures v in MqttVars
  {
    match v
    case ENABLE_MQTT =>
    case MQTT_BROKER =>
    case MQTT_PORT =>
    case MQTT_USER =>
    case MQTT_PASSWD =>
    case MQTT_LOG =>
    case MSG_TOPIC =>
    case MSG_DBMS =>
    case MSG_TABLE =>
    case MSG_TIMESTAMP_COLUMN =>
    case MSG_VALUE_COLUMN =>
    case MSG_VALUE_COLUMN_TYPE =>
  }

  lemma OpcuaVarsComplete(v: OpcuaVar)
    ensures v in OpcuaVars
  {
    match v
    case ENABLE_OPCUA =>
    case OPCUA_URL =>
    case OPCUA_NODE =>
    case OPCUA_FREQUENCY =>
  }

  lemma EtherIpVarsComplete(v: EtherIpVar)
    ensures v in EtherIpVars
  {
    match v
    case ENABLE_ETHERIP =>
    case SIMULATOR_MODE =>
    case ETHERIP_URL =>
    case ETHERIP_FREQUENCY =>
  }

  lemma AggVarsComplete(v: AggVar)
    ensures v in AggVars
  {
    match v
    case ENABLE_AGGREGATIONS =>
    case AGGREGATION_TIME_COLUMN =>
    case AGGREGATION_VALUE_COLUMN =>
  }

  lemma MonitorVarsComplete(v: MonitorVar)
    ensures v in MonitorVars
  {
    match v
    case MONITOR_NODES =>
    case STORE_MONITORING =>
    case SYSLOG_MONITORING =>
  }

  lemma McpVarsComplete(v: McpVar)
    ensures v in McpVars
  {
    match v
    case MCP_AUTOSTART =>
  }

  lemma AdvancedVarsComplete(v: AdvancedVar)
    ensures v in AdvancedVars
  {
    match v
    case DEPLOY_LOCAL_SCRIPT =>
    case DEBUG_MODE =>
    case COMPRESS_FILE =>
    case QUERY_POOL =>
    case WRITE_IMMEDIATE =>
    case THRESHOLD_TIME =>
    case THRESHOLD_VOLUME =>
  }

  lemma NebulaVarsComplete(v: NebulaVar)
    ensures v in NebulaVars
  {
    match v
    case ENABLE_NEBULA =>
    case NEBULA_NEW_KEYS =>
    case IS_LIGHTHOUSE =>
    case CIDR_OVERLAY_ADDRESS =>
    case LIGHTHOUSE_IP =>
    case LIGHTHOUSE_NODE_IP =>
  }

  /** The groups cover every key. */
  lemma AllKeysComplete(k: CmKey)
    ensures k in AllKeys
  {
    if k.Fixed? || k.Dirs? || k.General? || k.Geo? || k.Net? || k.Db? || k.NoSql? || k.Chain? {
      LeadingKeysComplete(k);
    } else {
      TrailingKeysComplete(k);
    }
  }

  lemma LeadingKeysComplete(k: CmKey)
    requires k.Fixed? || k.Dirs? || k.General? || k.Geo? || k.Net? || k.Db? || k.NoSql? || k.Chain?
    ensures k in LeadingKeys
  {
    match k
    case Fixed(v) => FixedVarsComplete(v); TaggedHas(FixedVars, FixedKey, v);
    case Dirs(v) => DirVarsComplete(v); TaggedHas(DirVars, DirKey, v);
    case General(v) => GeneralVarsComplete(v); TaggedHas(GeneralVars, GeneralKey, v);
    case Geo(v) => GeoVarsComplete(v); TaggedHas(GeoVars, GeoKey, v);
    case Net(v) => NetVarsComplete(v); TaggedHas(NetVars, NetKey, v);
    case Db(v) => DbVarsComplete(v); TaggedHas(DbVars, DbKey, v);
    case NoSql(v) => NoSqlVarsComplete(v); TaggedHas(NoSqlVars, NoSqlKey, v);
    case Chain(v) => ChainVarsComplete(v); TaggedHas(ChainVars, ChainKey, v);
  }

  lemma TrailingKeysComplete(k: CmKey)
    requires !(k.Fixed? || k.Dirs? || k.General? || k.Geo? || k.Net? || k.Db? || k.NoSql? || k.Chain?)
    ensures k in TrailingKeys
  {
    match k
    case Op(v) => OperatorVarsComplete(v); TaggedHas(OperatorVars, OpKey, v);
    case Part(v) => PartitionVarsComplete(v); TaggedHas(PartitionVars, PartKey, v);
    case Mqtt(v) => MqttVarsComplete(v); TaggedHas(MqttVars, MqttKey, v);
    case Opcua(v) => OpcuaVarsComplete(v); TaggedHas(OpcuaVars, OpcuaKey, v);
    case EtherIp(v) => EtherIpVarsComplete(v); TaggedHas(EtherIpVars, EtherIpKey, v);
    case Agg(v) => AggVarsComplete(v); TaggedHas(AggVars, AggKey, v);
    case Monitor(v) => MonitorVarsComplete(v); TaggedHas(MonitorVars, MonitorKey, v);
    case Mcp(v) => McpVarsComplete(v); TaggedHas(McpVars, McpKey, v);
    case Adv(v) => AdvancedVarsComplete(v); TaggedHas(AdvancedVars, AdvKey, v);
    case Nebula(v) => NebulaVarsComplete(v); TaggedHas(NebulaVars, NebulaKey, v);
  }

  /** The `if s != "" { data[K] = s }` insertion. */
  function NonEmpty(s: string): Option<string> {
    if s != "" then Some(s) else None
  }

  // What a table entry says, in the terms of the source's writes.

  predicate IsValue(e: Option<string>, v: string) {
    e == Some(v)
  }

  /** Always written, with `strconv.FormatBool(b)`. */
  predicate IsBool(e: Option<string>, b: bool) {
    e.Some? && (e.value == "true" || e.value == "false") && (e.value == "true" <==> b)
  }

  /** Always written, with `strconv.Itoa(i)`: a decimal that parses back to `i`. */
  predicate IsInt(e: Option<string>, i: int) {
    e.Some? && ParseInt(e.value) == i
  }

  /** Written exactly when `s` is non-empty, with `s`. */
  predicate WrittenIfNonEmpty(e: Option<string>, s: string) {
    (e.Some? <==> s != "") && (s != "" ==> e == Some(s))
  }

  function FixedEntry(md: MetadataSpec, namespace: string, v: FixedVar): Option<string> {
    match v
    case IS_KUBERNETES => Some(TrueStr)
    case PROXY_IP => Some(ProxyHost(md, namespace))
  }

  function DirEntry(d: DirectoriesConfig, v: DirVar): Option<string> {
    match v
    case ANYLOG_PATH => Some(d.anylogPath)
    case LOCAL_SCRIPTS => Some(d.localScripts)
    case TEST_DIR => Some(d.testDir)
  }

  /** General keys; `appName` is NODE_NAME's fallback. */
  function GeneralEntry(g: GeneralConfig, appName: string, v: GeneralVar): Option<string> {
    match v
    case LICENSE_KEY => NonEmpty(g.licenseKey)
    case INIT_TYPE => Some(ProdInitType)
    case NODE_TYPE => Some(g.nodeType)
    case NODE_NAME => Some(if g.nodeName == "" then appName else g.nodeName)
    case COMPANY_NAME => Some(g.companyName)
    case DISABLE_CLI => Some(BoolStr(g.disableCli))
    case REMOTE_CLI => Some(BoolStr(g.remoteCli))
  }

  function GeoEntry(geo: GeolocationConfig, v: GeoVar): Option<string> {
    match v
    case LOCATION => NonEmpty(geo.location)
    case COUNTRY => NonEmpty(geo.country)
    case STATE => NonEmpty(geo.state)
    case CITY => NonEmpty(geo.city)
  }

  function NetEntry(n: NetworkingConfig, v: NetVar): Option<string> {
    match v
    case OVERLAY_IP => NonEmpty(n.overlayIp)
    case ANYLOG_SERVER_PORT => Some(IntStr(n.serverPort))
    case ANYLOG_REST_PORT => Some(IntStr(n.restPort))
    case ANYLOG_BROKER_PORT => if n.brokerPort > 0 then Some(IntStr(n.brokerPort)) else None
    case TCP_BIND => Some(BoolStr(n.tcpBind))
    case REST_BIND => Some(BoolStr(n.restBind))
    case BROKER_BIND => Some(BoolStr(n.brokerBind))
    case CONFIG_NAME => NonEmpty(n.configName)
    case NIC_TYPE => NonEmpty(n.nicType)
    case TCP_THREADS => Some(IntStr(n.tcpThreads))
    case REST_TIMEOUT => Some(IntStr(n.restTimeout))
    case REST_THREADS => Some(IntStr(n.restThreads))
    case BROKER_THREADS => Some(IntStr(n.brokerThreads))
  }

  function DbEntry(db: DatabaseConfig, v: DbVar): Option<string> {
    match v
    case DB_TYPE => Some(db.dbType)
    case DB_USER => NonEmpty(db.dbUser)
    case DB_PASSWD => NonEmpty(db.dbPasswd)
    case DB_IP => Some(db.dbIp)
    case DB_PORT => Some(IntStr(db.dbPort))
    case AUTOCOMMIT => Some(BoolStr(db.autocommit))
    case ENABLE_NOSQL => Some(BoolStr(db.enableNoSql))
    case SYSTEM_QUERY => Some(BoolStr(db.systemQuery))
    case MEMORY => Some(BoolStr(db.memory))
  }

  function NoSqlEntry(db: DatabaseConfig, v: NoSqlVar): Option<string> {
    match v
    case NOSQL_TYPE => Some(db.noSqlType)
    case NOSQL_USER => NonEmpty(db.noSqlUser)
    case NOSQL_PASSWD => NonEmpty(db.noSqlPasswd)
    case NOSQL_IP => Some(db.noSqlIp)
    case NOSQL_PORT => Some(IntStr(db.noSqlPort))
    case BLOBS_DBMS => Some(BoolStr(db.blobsDbms))
    case BLOBS_REUSE => Some(BoolStr(db.blobsReuse))
  }

  function ChainEntry(bc: BlockchainConfig, v: ChainVar): Option<string> {
    match v
    case LEDGER_CONN => Some(bc.ledgerConn)
    case SYNC_TIME => Some(bc.syncTime)
    case BLOCKCHAIN_SYNC => Some(bc.blockchainSync)
    case BLOCKCHAIN_SOURCE => Some(bc.source)
    case BLOCKCHAIN_DESTINATION => Some(bc.destination)
  }

  function OperatorEntry(op: OperatorConfig, v: OperatorVar): Option<string> {
    match v
    case CLUSTER_NAME => Some(op.clusterName)
    case DEFAULT_DBMS => Some(op.defaultDbms)
    case MEMBER => NonEmpty(op.member)
    case ENABLE_HA => Some(BoolStr(op.enableHa))
    case START_DATE => Some(IntStr(op.startDate))
    case OPERATOR_THREADS => Some(IntStr(op.threads))
  }

  function PartitionEntry(op: OperatorConfig, v: PartitionVar): Option<string> {
    match v
    case ENABLE_PARTITIONS => Some(BoolStr(op.enablePartitions))
    case TABLE_NAME => Some(op.tableName)
    case PARTITION_COLUMN => Some(op.partitionColumn)
    case PARTITION_INTERVAL => Some(op.partitionInterval)
    case PARTITION_KEEP => Some(IntStr(op.partitionKeep))
    case PARTITION_SYNC => Some(op.partitionSync)
  }

  function MqttEntry(mq: MqttConfig, v: MqttVar): Option<string> {
    match v
    case ENABLE_MQTT => Some(BoolStr(mq.enable))
    case MQTT_BROKER => NonEmpty(mq.broker)
    case MQTT_PORT => Some(IntStr(mq.port))
    case MQTT_USER => NonEmpty(mq.user)
    case MQTT_PASSWD => NonEmpty(mq.passwd)
    case MQTT_LOG => Some(BoolStr(mq.log))
    case MSG_TOPIC => NonEmpty(mq.msgTopic)
    case MSG_DBMS => Some(mq.msgDbms)
    case MSG_TABLE => Some(mq.msgTable)
    case MSG_TIMESTAMP_COLUMN => Some(mq.msgTimestampColumn)
    case MSG_VALUE_COLUMN => Some(mq.msgValueColumn)
    case MSG_VALUE_COLUMN_TYPE => Some(mq.msgValueColumnType)
  }

  function OpcuaEntry(ua: OpcuaConfig, v: OpcuaVar): Option<string> {
    match v
    case ENABLE_OPCUA => Some(BoolStr(ua.enable))
    case OPCUA_URL => NonEmpty(ua.url)
    case OPCUA_NODE => NonEmpty(ua.node)
    case OPCUA_FREQUENCY => NonEmpty(ua.frequency)
  }

  function EtherIpEntry(ip: EtherIpConfig, v: EtherIpVar): Option<string> {
    match v
    case ENABLE_ETHERIP => Some(BoolStr(ip.enable))
    case SIMULATOR_MODE => Some(BoolStr(ip.simulatorMode))
    case ETHERIP_URL => NonEmpty(ip.url)
    case ETHERIP_FREQUENCY => NonEmpty(ip.frequency)
  }

  function AggEntry(agg: AggregationsConfig, v: AggVar): Option<string> {
    match v
    case ENABLE_AGGREGATIONS => Some(BoolStr(agg.enable))
    case AGGREGATION_TIME_COLUMN => Some(agg.timeColumn)
    case AGGREGATION_VALUE_COLUMN => Some(agg.valueColumn)
  }

  function MonitorEntry(mon: MonitoringConfig, v: MonitorVar): Option<string> {
    match v
    case MONITOR_NODES => Some(BoolStr(mon.monitorNodes))
    case STORE_MONITORING => Some(BoolStr(mon.storeMonitoring))
    case SYSLOG_MONITORING => Some(BoolStr(mon.syslogMonitoring))
  }

  function McpEntry(mcp: McpConfig, v: McpVar): Option<string> {
    match v
    case MCP_AUTOSTART => Some(BoolStr(mcp.autostart))
  }

  function AdvancedEntry(adv: AdvancedConfig, v: AdvancedVar): Option<string> {
    match v
    case DEPLOY_LOCAL_SCRIPT => Some(BoolStr(adv.deployLocalScript))
    case DEBUG_MODE => Some(BoolStr(adv.debugMode))
    case COMPRESS_FILE => Some(BoolStr(adv.compressFile))
    case QUERY_POOL => Some(IntStr(adv.queryPool))
    case WRITE_IMMEDIATE => Some(BoolStr(adv.writeImmediate))
    case THRESHOLD_TIME => Some(adv.thresholdTime)
    case THRESHOLD_VOLUME => Some(adv.thresholdVolume)
  }

  function NebulaEntry(neb: NebulaConfig, v: NebulaVar): Option<string> {
    match v
    case ENABLE_NEBULA => Some(BoolStr(neb.enable))
    case NEBULA_NEW_KEYS => Some(BoolStr(neb.newKeys))
    case IS_LIGHTHOUSE => Some(BoolStr(neb.isLighthouse))
    case CIDR_OVERLAY_ADDRESS => NonEmpty(neb.cidrOverlayAddress)
    case LIGHTHOUSE_IP => NonEmpty(neb.lighthouseIp)
    case LIGHTHOUSE_NODE_IP => NonEmpty(neb.lighthouseNodeIp)
  }

  /** The section whose nil check guards `k` is non-nil (the two fixed keys have no guard). */
  predicate Guarded(nc: NodeConfigsSpec, k: CmKey) {
    match k
    case Fixed(_) => true
    case Dirs(_) => nc.directories.Some?
    case General(_) => nc.general.Some?
    case Geo(_) => nc.geolocation.Some?
    case Net(_) => nc.networking.Some?
    case Db(_) => nc.database.Some?
    case NoSql(_) => nc.database.Some?
    case Chain(_) => nc.blockchain.Some?
    case Op(_) => nc.operator.Some?
    case Part(_) => nc.operator.Some?
    case Mqtt(_) => nc.mqtt.Some?
    case Opcua(_) => nc.opcua.Some?
    case EtherIp(_) => nc.etherip.Some?
    case Agg(_) => nc.aggregations.Some?
    case Monitor(_) => nc.monitoring.Some?
    case Mcp(_) => nc.mcp.Some?
    case Adv(_) => nc.advanced.Some?
    case Nebula(_) => nc.nebula.Some?
  }

  /**
   * The value `data` holds for `k` when `buildConfigMapData` returns, or
   * `None` when `k` is never written: nothing from a nil section, otherwise
   * the section's own write.
   */
  function Entry(md: MetadataSpec, namespace: string, nc: NodeConfigsSpec, k: CmKey): Option<string> {
    if !Guarded(nc, k) then None
    else
      match k
      case Fixed(v) => FixedEntry(md, namespace, v)
      case Dirs(v) => DirEntry(nc.directories.value, v)
      case General(v) => GeneralEntry(nc.general.value, md.appName, v)
      case Geo(v) => GeoEntry(nc.geolocation.value, v)
      case Net(v) => NetEntry(nc.networking.value, v)
      case Db(v) => DbEntry(nc.database.value, v)
      case NoSql(v) => NoSqlEntry(nc.database.value, v)
      case Chain(v) => ChainEntry(nc.blockchain.value, v)
      case Op(v) => OperatorEntry(nc.operator.value, v)
      case Part(v) => PartitionEntry(nc.operator.value, v)
      case Mqtt(v) => MqttEntry(nc.mqtt.value, v)
      case Opcua(v) => OpcuaEntry(nc.opcua.value, v)
      case EtherIp(v) => EtherIpEntry(nc.etherip.value, v)
      case Agg(v) => AggEntry(nc.aggregations.value, v)
      case Monitor(v) => MonitorEntry(nc.monitoring.value, v)
      case Mcp(v) => McpEntry(nc.mcp.value, v)
      case Adv(v) => AdvancedEntry(nc.advanced.value, v)
      case Nebula(v) => NebulaEntry(nc.nebula.value, v)
  }

  /** `buildConfigMapData`: every key whose table entry is present. */
  function ConfigMapData(md: MetadataSpec, namespace: string, nc: NodeConfigsSpec): map<CmKey, string> {
    DataFrom(AllKeys, md, namespace, nc)
  }

  /** The entries of `keys` that the table fills, written one key at a time. */
  function DataFrom(keys: seq<CmKey>, md: MetadataSpec, namespace: string, nc: NodeConfigsSpec): map<CmKey, string>
    decreases |keys|
  {
    if |keys| == 0 then map[]
    else
      var rest := DataFrom(keys[1..], md, namespace, nc);
      var e := Entry(md, namespace, nc, keys[0]);
      if e.Some? then rest[keys[0] := e.value] else rest
  }

  lemma {:induction false} DataFromAt(keys: seq<CmKey>, md: MetadataSpec, namespace: string, nc: NodeConfigsSpec, k: CmKey)
    decreases |keys|
    ensures k in DataFrom(keys, md, namespace, nc) <==> k in keys && Entry(md, namespace, nc, k).Some?
    ensures k in DataFrom(keys, md, namespace, nc) ==> DataFrom(keys, md, namespace, nc)[k] == Entry(md, namespace, nc, k).value
  {
    if |keys| > 0 {
      DataFromAt(keys[1..], md, namespace, nc, k);
      assert k in keys <==> k == keys[0] || k in keys[1..];
    }
  }

  /** One key of `data`: present exactly when its table entry is, with the entry's value. */
  lemma DataAt(md: MetadataSpec, namespace: string, nc: NodeConfigsSpec, k: CmKey)
    ensures k in ConfigMapData(md, namespace, nc) <==> Entry(md, namespace, nc, k).Some?
    ensures k in ConfigMapData(md, namespace, nc) ==> ConfigMapData(md, namespace, nc)[k] == Entry(md, namespace, nc, k).value
  {
    AllKeysComplete(k);
    DataFromAt(AllKeys, md, namespace, nc, k);
  }

  /** The fields `BuildConfigMap` dereferences: the labels' sections and `Spec.NodeConfigs`. */
  predicate ConfigMapBuildable(cr: EdgeLakeOperator) {
    Labelled(cr) && cr.spec.nodeConfigs.Some?
  }

  /**
   * `BuildConfigMap`: named `Metadata.ConfigMapName` with the standard
   * labels; IS_KUBERNETES is "true" and PROXY_IP the Service's cluster DNS
   * name, whatever the node configuration holds.
   */
  function BuildConfigMap(cr: EdgeLakeOperator): (m: Object)
    requires ConfigMapBuildable(cr)
    ensures m.ConfigMap? && KindOf(m) == ConfigMapKind
    ensures m.meta == ObjectMeta(cr.spec.metadata.value.configMapName, cr.namespace, Labels(cr), None)
    ensures Fixed(IS_KUBERNETES) in m.data && m.data[Fixed(IS_KUBERNETES)] == TrueStr
    ensures Fixed(PROXY_IP) in m.data
      && m.data[Fixed(PROXY_IP)] == ProxyHost(cr.spec.metadata.value, cr.namespace)
  {
    var md, nc := cr.spec.metadata.value, cr.spec.nodeConfigs.value;
    DataAt(md, cr.namespace, nc, Fixed(IS_KUBERNETES));
    DataAt(md, cr.namespace, nc, Fixed(PROXY_IP));
    ConfigMap(ObjectMeta(md.configMapName, cr.namespace, Labels(cr), None), ConfigMapData(md, cr.namespace, nc))
  }

  /** A key from a section appears only when that section is non-nil. */
  lemma KeysOnlyFromPresentSections(md: MetadataSpec, namespace: string, nc: NodeConfigsSpec)
    ensures forall k | k in ConfigMapData(md, namespace, nc) :: Guarded(nc, k)
  {
    forall k | k in ConfigMapData(md, namespace, nc)
      ensures Guarded(nc, k)
    {
      DataAt(md, namespace, nc, k);
    }
  }

  /** With every section nil, `data` holds exactly the two fixed keys. */
  lemma EmptyNodeConfigsData(md: MetadataSpec, namespace: string)
    ensures ConfigMapData(md, namespace, EmptyNodeConfigs).Keys == {Fixed(IS_KUBERNETES), Fixed(PROXY_IP)}
  {
    var d := ConfigMapData(md, namespace, EmptyNodeConfigs);
    forall k: CmKey
      ensures k in d <==> k == Fixed(IS_KUBERNETES) || k == Fixed(PROXY_IP)
    {
      DataAt(md, namespace, EmptyNodeConfigs, k);
    }
  }

  /** Networking: the ports and counts in decimal, the broker port only when positive, the binds as booleans. */
  lemma NetworkingEntries(n: NetworkingConfig)
    ensures IsInt(NetEntry(n, ANYLOG_SERVER_PORT), n.serverPort) && IsInt(NetEntry(n, ANYLOG_REST_PORT), n.restPort)
    ensures NetEntry(n, ANYLOG_BROKER_PORT).Some? <==> n.brokerPort > 0
    ensures n.brokerPort > 0 ==> IsInt(NetEntry(n, ANYLOG_BROKER_PORT), n.brokerPort)
    ensures IsBool(NetEntry(n, TCP_BIND), n.tcpBind) && IsBool(NetEntry(n, REST_BIND), n.restBind)
    ensures IsBool(NetEntry(n, BROKER_BIND), n.brokerBind)
    ensures WrittenIfNonEmpty(NetEntry(n, OVERLAY_IP), n.overlayIp)
    ensures WrittenIfNonEmpty(NetEntry(n, CONFIG_NAME), n.configName)
    ensures WrittenIfNonEmpty(NetEntry(n, NIC_TYPE), n.nicType)
    ensures IsInt(NetEntry(n, TCP_THREADS), n.tcpThreads) && IsInt(NetEntry(n, REST_TIMEOUT), n.restTimeout)
    ensures IsInt(NetEntry(n, REST_THREADS), n.restThreads) && IsInt(NetEntry(n, BROKER_THREADS), n.brokerThreads)
  {
    IntStrRoundTrip(n.serverPort);
    IntStrRoundTrip(n.restPort);
    IntStrRoundTrip(n.brokerPort);
    IntStrRoundTrip(n.tcpThreads);
    IntStrRoundTrip(n.restTimeout);
    IntStrRoundTrip(n.restThreads);
    IntStrRoundTrip(n.brokerThreads);
  }

  /** Database: the user and the inline password only when non-empty, the rest always. */
  lemma DatabaseEntries(db: DatabaseConfig)
    ensures IsValue(DbEntry(db, DB_TYPE), db.dbType) && IsValue(DbEntry(db, DB_IP), db.dbIp)
    ensures WrittenIfNonEmpty(DbEntry(db, DB_USER), db.dbUser)
    ensures WrittenIfNonEmpty(DbEntry(db, DB_PASSWD), db.dbPasswd)
    ensures IsInt(DbEntry(db, DB_PORT), db.dbPort)
    ensures IsBool(DbEntry(db, AUTOCOMMIT), db.autocommit) && IsBool(DbEntry(db, ENABLE_NOSQL), db.enableNoSql)
    ensures IsBool(DbEntry(db, SYSTEM_QUERY), db.systemQuery) && IsBool(DbEntry(db, MEMORY), db.memory)
  {
    IntStrRoundTrip(db.dbPort);
  }

  /** NoSQL: the user and the inline password only when non-empty, the rest always. */
  lemma NoSqlEntries(db: DatabaseConfig)
    ensures IsValue(NoSqlEntry(db, NOSQL_TYPE), db.noSqlType) && IsValue(NoSqlEntry(db, NOSQL_IP), db.noSqlIp)
    ensures WrittenIfNonEmpty(NoSqlEntry(db, NOSQL_USER), db.noSqlUser)
    ensures WrittenIfNonEmpty(NoSqlEntry(db, NOSQL_PASSWD), db.noSqlPasswd)
    ensures IsInt(NoSqlEntry(db, NOSQL_PORT), db.noSqlPort)
    ensures IsBool(NoSqlEntry(db, BLOBS_DBMS), db.blobsDbms) && IsBool(NoSqlEntry(db, BLOBS_REUSE), db.blobsReuse)
  {
    IntStrRoundTrip(db.noSqlPort);
  }

  /** Operator and partitioning: MEMBER only when non-empty, the rest always. */
  lemma OperatorEntries(op: OperatorConfig)
    ensures IsValue(OperatorEntry(op, CLUSTER_NAME), op.clusterName)
    ensures IsValue(OperatorEntry(op, DEFAULT_DBMS), op.defaultDbms)
    ensures WrittenIfNonEmpty(OperatorEntry(op, MEMBER), op.member)
    ensures IsBool(OperatorEntry(op, ENABLE_HA), op.enableHa)
    ensures IsInt(OperatorEntry(op, START_DATE), op.startDate) && IsInt(OperatorEntry(op, OPERATOR_THREADS), op.threads)
    ensures IsBool(PartitionEntry(op, ENABLE_PARTITIONS), op.enablePartitions)
    ensures IsValue(PartitionEntry(op, TABLE_NAME), op.tableName)
    ensures IsValue(PartitionEntry(op, PARTITION_COLUMN), op.partitionColumn)
    ensures IsValue(PartitionEntry(op, PARTITION_INTERVAL), op.partitionInterval)
    ensures IsInt(PartitionEntry(op, PARTITION_KEEP), op.partitionKeep)
    ensures IsValue(PartitionEntry(op, PARTITION_SYNC), op.partitionSync)
  {
    IntStrRoundTrip(op.startDate);
    IntStrRoundTrip(op.threads);
    IntStrRoundTrip(op.partitionKeep);
  }

  /** MQTT: broker, user, inline password and topic only when non-empty; the message columns always. */
  lemma MqttEntries(mq: MqttConfig)
    ensures IsBool(MqttEntry(mq, ENABLE_MQTT), mq.enable) && IsBool(MqttEntry(mq, MQTT_LOG), mq.log)
    ensures IsInt(MqttEntry(mq, MQTT_PORT), mq.port)
    ensures WrittenIfNonEmpty(MqttEntry(mq, MQTT_BROKER), mq.broker)
    ensures WrittenIfNonEmpty(MqttEntry(mq, MQTT_USER), mq.user)
    ensures WrittenIfNonEmpty(MqttEntry(mq, MQTT_PASSWD), mq.passwd)
    ensures WrittenIfNonEmpty(MqttEntry(mq, MSG_TOPIC), mq.msgTopic)
    ensures IsValue(MqttEntry(mq, MSG_DBMS), mq.msgDbms) && IsValue(MqttEntry(mq, MSG_TABLE), mq.msgTable)
    ensures IsValue(MqttEntry(mq, MSG_TIMESTAMP_COLUMN), mq.msgTimestampColumn)
    ensures IsValue(MqttEntry(mq, MSG_VALUE_COLUMN), mq.msgValueColumn)
    ensures IsValue(MqttEntry(mq, MSG_VALUE_COLUMN_TYPE), mq.msgValueColumnType)
  {
    IntStrRoundTrip(mq.port);
  }

  /** Monitoring, MCP, advanced and Nebula: flags and counts always, the Nebula addresses only when non-empty. */
  lemma NodeEntries(mon: MonitoringConfig, mcp: McpConfig, adv: AdvancedConfig, neb: NebulaConfig)
    ensures IsBool(MonitorEntry(mon, MONITOR_NODES), mon.monitorNodes)
    ensures IsBool(MonitorEntry(mon, STORE_MONITORING), mon.storeMonitoring)
    ensures IsBool(MonitorEntry(mon, SYSLOG_MONITORING), mon.syslogMonitoring)
    ensures IsBool(McpEntry(mcp, MCP_AUTOSTART), mcp.autostart)
    ensures IsBool(AdvancedEntry(adv, DEPLOY_LOCAL_SCRIPT), adv.deployLocalScript)
    ensures IsBool(AdvancedEntry(adv, DEBUG_MODE), adv.debugMode)
    ensures IsBool(AdvancedEntry(adv, COMPRESS_FILE), adv.compressFile)
    ensures IsInt(AdvancedEntry(adv, QUERY_POOL), adv.queryPool)
    ensures IsBool(AdvancedEntry(adv, WRITE_IMMEDIATE), adv.writeImmediate)
    ensures IsValue(AdvancedEntry(adv, THRESHOLD_TIME), adv.thresholdTime)
    ensures IsValue(AdvancedEntry(adv, THRESHOLD_VOLUME), adv.thresholdVolume)
    ensures IsBool(NebulaEntry(neb, ENABLE_NEBULA), neb.enable) && IsBool(NebulaEntry(neb, NEBULA_NEW_KEYS), neb.newKeys)
    ensures IsBool(NebulaEntry(neb, IS_LIGHTHOUSE), neb.isLighthouse)
    ensures WrittenIfNonEmpty(NebulaEntry(neb, CIDR_OVERLAY_ADDRESS), neb.cidrOverlayAddress)
    ensures WrittenIfNonEmpty(NebulaEntry(neb, LIGHTHOUSE_IP), neb.lighthouseIp)
    ensures WrittenIfNonEmpty(NebulaEntry(neb, LIGHTHOUSE_NODE_IP), neb.lighthouseNodeIp)
  {
    IntStrRoundTrip(adv.queryPool);
  }

  /**
   * The inline credentials reach the ConfigMap: LICENSE_KEY, DB_PASSWD,
   * NOSQL_PASSWD and MQTT_PASSWD are keys of `data` exactly when their
   * section is non-nil and the field non-empty, holding the plain value.
   */
  lemma InlineCredentialsWritten(md: MetadataSpec, namespace: string, nc: NodeConfigsSpec)
    ensures var d := ConfigMapData(md, namespace, nc);
      && (General(LICENSE_KEY) in d <==> nc.general.Some? && nc.general.value.licenseKey != "")
      && (General(LICENSE_KEY) in d ==> d[General(LICENSE_KEY)] == nc.general.value.licenseKey)
    ensures var d := ConfigMapData(md, namespace, nc);
      && (Db(DB_PASSWD) in d <==> nc.database.Some? && nc.database.value.dbPasswd != "")
      && (Db(DB_PASSWD) in d ==> d[Db(DB_PASSWD)] == nc.database.value.dbPasswd)
    ensures var d := ConfigMapData(md, namespace, nc);
      && (NoSql(NOSQL_PASSWD) in d <==> nc.database.Some? && nc.database.value.noSqlPasswd != "")
      && (NoSql(NOSQL_PASSWD) in d ==> d[NoSql(NOSQL_PASSWD)] == nc.database.value.noSqlPasswd)
    ensures var d := ConfigMapData(md, namespace, nc);
      && (Mqtt(MQTT_PASSWD) in d <==> nc.mqtt.Some? && nc.mqtt.value.passwd != "")
      && (Mqtt(MQTT_PASSWD) in d ==> d[Mqtt(MQTT_PASSWD)] == nc.mqtt.value.passwd)
  {
    DataAt(md, namespace, nc, General(LICENSE_KEY));
    DataAt(md, namespace, nc, Db(DB_PASSWD));
    DataAt(md, namespace, nc, NoSql(NOSQL_PASSWD));
    DataAt(md, namespace, nc, Mqtt(MQTT_PASSWD));
  }

  /** NODE_NAME is in `data` exactly when the general section is, falling back to the application name. */
  lemma NodeNameFallback(md: MetadataSpec, namespace: string, nc: NodeConfigsSpec)
    ensures var d := ConfigMapData(md, namespace, nc);
      && (General(NODE_NAME) in d <==> nc.general.Some?)
      && (nc.general.Some? ==>
            d[General(NODE_NAME)] == if nc.general.value.nodeName == "" then md.appName else nc.general.value.nodeName)
      && (General(INIT_TYPE) in d <==> nc.general.Some?)
  {
    DataAt(md, namespace, nc, General(NODE_NAME));
    DataAt(md, namespace, nc, General(INIT_TYPE));
  }

  /** ANYLOG_BROKER_PORT is in `data` exactly when networking is set and the broker port positive. */
  lemma BrokerPortKey(md: MetadataSpec, namespace: string, nc: NodeConfigsSpec)
    ensures var d := ConfigMapData(md, namespace, nc);
      (Net(ANYLOG_BROKER_PORT) in d <==> nc.networking.Some? && nc.networking.value.brokerPort > 0)
  {
    DataAt(md, namespace, nc, Net(ANYLOG_BROKER_PORT));
  }
}
