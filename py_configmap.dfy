/**
 * `build_configmap` of the Python operator. The source starts from a
 * dictionary literal of fixed keys and then inserts each optional key when
 * its field is truthy; the model gives, for every key, the value it ends up
 * with or `None` when it is never inserted, and builds `data` from that
 * table.
 */
module PyConfigMap {
  import opened Common
  import opened PySpec
  import opened PyManifest
  import opened PyNames

  // The variables of each group, enumerated.
  const FixedVars: seq<FixedVar> := [IS_KUBERNETES, INIT_TYPE, ANYLOG_PATH, LOCAL_SCRIPTS, TEST_DIR, PROXY_IP]
  const GeneralVars: seq<GeneralVar> := [NODE_TYPE, NODE_NAME, COMPANY_NAME, DISABLE_CLI, REMOTE_CLI, LICENSE_KEY]
  const NetVars: seq<NetVar> :=
    [ANYLOG_SERVER_PORT, ANYLOG_REST_PORT, TCP_BIND, REST_BIND, BROKER_BIND, TCP_THREADS, REST_TIMEOUT, REST_THREADS,
     BROKER_THREADS, OVERLAY_IP, ANYLOG_BROKER_PORT, CONFIG_NAME, NIC_TYPE]
  const GeoVars: seq<GeoVar> := [LOCATION, COUNTRY, STATE, CITY]
  const DbVars: seq<DbVar> := [DB_TYPE, DB_IP, DB_PORT, AUTOCOMMIT, SYSTEM_QUERY, MEMORY, DB_USER, DB_PASSWD]
  const NoSqlVars: seq<NoSqlVar> :=
    [ENABLE_NOSQL, NOSQL_TYPE, NOSQL_IP, NOSQL_PORT, BLOBS_DBMS, BLOBS_REUSE, NOSQL_USER, NOSQL_PASSWD]
  const ChainVars: seq<ChainVar> :=
    [LEDGER_CONN, SYNC_TIME, BLOCKCHAIN_SYNC, BLOCKCHAIN_SOURCE, BLOCKCHAIN_DESTINATION]
  const OperatorVars: seq<OperatorVar> :=
    [CLUSTER_NAME, DEFAULT_DBMS, ENABLE_HA, START_DATE, OPERATOR_THREADS, MEMBER]
  const PartitionVars: seq<PartitionVar> :=
    [ENABLE_PARTITIONS, TABLE_NAME, PARTITION_COLUMN, PARTITION_INTERVAL, PARTITION_KEEP, PARTITION_SYNC]
  const MqttVars: seq<MqttVar> :=
    [ENABLE_MQTT, MQTT_PORT, MQTT_LOG, MQTT_BROKER, MQTT_USER, MSG_TOPIC, MSG_DBMS, MSG_TABLE, MSG_TIMESTAMP_COLUMN,
     MSG_VALUE_COLUMN, MSG_VALUE_COLUMN_TYPE, MQTT_PASSWD]
  const OpcuaVars: seq<OpcuaVar> := [ENABLE_OPCUA, OPCUA_URL, OPCUA_NODE, OPCUA_FREQUENCY]
  const EtherIpVars: seq<EtherIpVar> := [ENABLE_ETHERIP, SIMULATOR_MODE, ETHERIP_URL, ETHERIP_FREQUENCY]
  const AggVars: seq<AggVar> := [ENABLE_AGGREGATIONS, AGGREGATION_TIME_COLUMN, AGGREGATION_VALUE_COLUMN]
  const MonitorVars: seq<MonitorVar> := [MONITOR_NODES, STORE_MONITORING, SYSLOG_MONITORING]
  const McpVars: seq<McpVar> := [MCP_AUTOSTART]
  const AdvancedVars: seq<AdvancedVar> :=
    [DEPLOY_LOCAL_SCRIPT, DEBUG_MODE, COMPRESS_FILE, QUERY_POOL, WRITE_IMMEDIATE, THRESHOLD_TIME, THRESHOLD_VOLUME]
  const NebulaVars: seq<NebulaVar> :=
    [ENABLE_NEBULA, NEBULA_NEW_KEYS, IS_LIGHTHOUSE, CIDR_OVERLAY_ADDRESS, LIGHTHOUSE_IP, LIGHTHOUSE_NODE_IP]

  /** The variables of a group, each tagged with its group. */
  function Tagged<T>(vs: seq<T>, tag: T -> EnvKey): (ks: seq<EnvKey>)
    ensures |ks| == |vs| && forall i | 0 <= i < |vs| :: ks[i] == tag(vs[i])
  {
    seq(|vs|, i requires 0 <= i < |vs| => tag(vs[i]))
  }

  lemma TaggedHas<T>(vs: seq<T>, tag: T -> EnvKey, v: T)
    requires v in vs
    ensures tag(v) in Tagged(vs, tag)
  {
    var i :| 0 <= i < |vs| && vs[i] == v;
    assert Tagged(vs, tag)[i] == tag(v);
  }

  // Each group's constructor as a function value.
  function FixedKey(v: FixedVar): EnvKey { Fixed(v) }
  function GeneralKey(v: GeneralVar): EnvKey { General(v) }
  function NetKey(v: NetVar): EnvKey { Net(v) }
  function GeoKey(v: GeoVar): EnvKey { Geo(v) }
  function DbKey(v: DbVar): EnvKey { Db(v) }
  function NoSqlKey(v: NoSqlVar): EnvKey { NoSql(v) }
  function ChainKey(v: ChainVar): EnvKey { Chain(v) }
  function OpKey(v: OperatorVar): EnvKey { Op(v) }
  function PartKey(v: PartitionVar): EnvKey { Part(v) }
  function MqttKey(v: MqttVar): EnvKey { Mqtt(v) }
  function OpcuaKey(v: OpcuaVar): EnvKey { Opcua(v) }
  function EtherIpKey(v: EtherIpVar): EnvKey { EtherIp(v) }
  function AggKey(v: AggVar): EnvKey { Agg(v) }
  function MonitorKey(v: MonitorVar): EnvKey { Monitor(v) }
  function McpKey(v: McpVar): EnvKey { Mcp(v) }
  function AdvKey(v: AdvancedVar): EnvKey { Adv(v) }
  function NebulaKey(v: NebulaVar): EnvKey { Nebula(v) }

  /** Every variable name, group by group. */
  const AllEnvKeys: seq<EnvKey> :=
    Tagged(FixedVars, FixedKey) + Tagged(GeneralVars, GeneralKey) + Tagged(NetVars, NetKey) + Tagged(GeoVars, GeoKey) +
    Tagged(DbVars, DbKey) + Tagged(NoSqlVars, NoSqlKey) + Tagged(ChainVars, ChainKey) + Tagged(OperatorVars, OpKey) +
    Tagged(PartitionVars, PartKey) + Tagged(MqttVars, MqttKey) + Tagged(OpcuaVars, OpcuaKey) + Tagged(EtherIpVars, EtherIpKey) +
    Tagged(AggVars, AggKey) + Tagged(MonitorVars, MonitorKey) + Tagged(McpVars, McpKey) + Tagged(AdvancedVars, AdvKey) +
    Tagged(NebulaVars, NebulaKey)

  /** Each group lists every variable of its type. */
  lemma FixedVarsComplete(v: FixedVar)
    ensures v in FixedVars
  {
    match v
    case IS_KUBERNETES =>
    case INIT_TYPE =>
    case ANYLOG_PATH =>
    case LOCAL_SCRIPTS =>
    case TEST_DIR =>
    case PROXY_IP =>
  }

  lemma GeneralVarsComplete(v: GeneralVar)
    ensures v in GeneralVars
  {
    match v
    case NODE_TYPE =>
    case NODE_NAME =>
    case COMPANY_NAME =>
    case DISABLE_CLI =>
    case REMOTE_CLI =>
    case LICENSE_KEY =>
  }

  lemma NetVarsComplete(v: NetVar)
    ensures v in NetVars
  {
    match v
    case ANYLOG_SERVER_PORT =>
    case ANYLOG_REST_PORT =>
    case TCP_BIND =>
    case REST_BIND =>
    case BROKER_BIND =>
    case TCP_THREADS =>
    case REST_TIMEOUT =>
    case REST_THREADS =>
    case BROKER_THREADS =>
    case OVERLAY_IP =>
    case ANYLOG_BROKER_PORT =>
    case CONFIG_NAME =>
    case NIC_TYPE =>
  }

  lemma GeoVarsComplete(v: GeoVar)
    ensures v in GeoVars
  {
    match v
    case LOCATION =>
    case COUNTRY =>
    case STATE =>
    case CITY =>
  }

  lemma DbVarsComplete(v: DbVar)
    ensures v in DbVars
  {
    match v
    case DB_TYPE =>
    case DB_IP =>
    case DB_PORT =>
    case AUTOCOMMIT =>
    case SYSTEM_QUERY =>
    case MEMORY =>
    case DB_USER =>
    case DB_PASSWD =>
  }

  lemma NoSqlVarsComplete(v: NoSqlVar)
    ensures v in NoSqlVars
  {
    match v
    case ENABLE_NOSQL =>
    case NOSQL_TYPE =>
    case NOSQL_IP =>
    case NOSQL_PORT =>
    case BLOBS_DBMS =>
    case BLOBS_REUSE =>
    case NOSQL_USER =>
    case NOSQL_PASSWD =>
  }

  lemma ChainVarsComplete(v: ChainVar)
    ensures v in ChainVars
  {
    match v
    case LEDGER_CONN =>
    case SYNC_TIME =>
    case BLOCKCHAIN_SYNC =>
    case BLOCKCHAIN_SOURCE =>
    case BLOCKCHAIN_DESTINATION =>
  }

  lemma OperatorVarsComplete(v: OperatorVar)
    ensures v in OperatorVars
  {
    match v
    case CLUSTER_NAME =>
    case DEFAULT_DBMS =>
    case ENABLE_HA =>
    case START_DATE =>
    case OPERATOR_THREADS =>
    case MEMBER =>
  }

  lemma PartitionVarsComplete(v: PartitionVar)
    ensures v in PartitionVars
  {
    match v
    case ENABLE_PARTITIONS =>
    case TABLE_NAME =>
    case PARTITION_COLUMN =>
    case PARTITION_INTERVAL =>
    case PARTITION_KEEP =>
    case PARTITION_SYNC =>
  }

  lemma MqttVarsComplete(v: MqttVar)
    ensures v in MqttVars
  {
    match v
    case ENABLE_MQTT =>
    case MQTT_PORT =>
    case MQTT_LOG =>
    case MQTT_BROKER =>
    case MQTT_USER =>
    case MQTT_PASSWD =>
    case MSG_TOPIC =>
    case MSG_DBMS =>
    case MSG_TABLE =>
    case MSG_TIMESTAMP_COLUMN =>
    case MSG_VALUE_COLUMN =>
    case MSG_VALUE_COLUMN_TYPE =>
  }

  lemma OpcuaVarsComplete(v: OpcuaVar)
    ensures v in OpcuaVars
  {
    match v
    case ENABLE_OPCUA =>
    case OPCUA_URL =>
    case OPCUA_NODE =>
    case OPCUA_FREQUENCY =>
  }

  lemma EtherIpVarsComplete(v: EtherIpVar)
    ensures v in EtherIpVars
  {
    match v
    case ENABLE_ETHERIP =>
    case SIMULATOR_MODE =>
    case ETHERIP_URL =>
    case ETHERIP_FREQUENCY =>
  }

  lemma AggVarsComplete(v: AggVar)
    ensures v in AggVars
  {
    match v
    case ENABLE_AGGREGATIONS =>
    case AGGREGATION_TIME_COLUMN =>
    case AGGREGATION_VALUE_COLUMN =>
  }

  lemma MonitorVarsComplete(v: MonitorVar)
    ensures v in MonitorVars
  {
    match v
    case MONITOR_NODES =>
    case STORE_MONITORING =>
    case SYSLOG_MONITORING =>
  }

  lemma McpVarsComplete(v: McpVar)
    ensures v in McpVars
  {
    match v
    case MCP_AUTOSTART =>
  }

  lemma AdvancedVarsComplete(v: AdvancedVar)
    ensures v in AdvancedVars
  {
    match v
    case DEPLOY_LOCAL_SCRIPT =>
    case DEBUG_MODE =>
    case COMPRESS_FILE =>
    case QUERY_POOL =>
    case WRITE_IMMEDIATE =>
    case THRESHOLD_TIME =>
    case THRESHOLD_VOLUME =>
  }

  lemma NebulaVarsComplete(v: NebulaVar)
    ensures v in NebulaVars
  {
    match v
    case ENABLE_NEBULA =>
    case NEBULA_NEW_KEYS =>
    case IS_LIGHTHOUSE =>
    case CIDR_OVERLAY_ADDRESS =>
    case LIGHTHOUSE_IP =>
    case LIGHTHOUSE_NODE_IP =>
  }

  /** The groups cover every variable name. */
  lemma AllEnvKeysComplete(k: EnvKey)
    ensures k in AllEnvKeys
  {
    match k
    case Fixed(v) => FixedVarsComplete(v); TaggedHas(FixedVars, FixedKey, v);
    case General(v) => GeneralVarsComplete(v); TaggedHas(GeneralVars, GeneralKey, v);
    case Net(v) => NetVarsComplete(v); TaggedHas(NetVars, NetKey, v);
    case Geo(v) => GeoVarsComplete(v); TaggedHas(GeoVars, GeoKey, v);
    case Db(v) => DbVarsComplete(v); TaggedHas(DbVars, DbKey, v);
    case NoSql(v) => NoSqlVarsComplete(v); TaggedHas(NoSqlVars, NoSqlKey, v);
    case Chain(v) => ChainVarsComplete(v); TaggedHas(ChainVars, ChainKey, v);
    case Op(v) => OperatorVarsComplete(v); TaggedHas(OperatorVars, OpKey, v);
    case Part(v) => PartitionVarsComplete(v); TaggedHas(PartitionVars, PartKey, v);
    case Mqtt(v) => MqttVarsComplete(v); TaggedHas(MqttVars, MqttKey, v);
    case Opcua(v) => OpcuaVarsComplete(v); TaggedHas(OpcuaVars, OpcuaKey, v);
    case EtherIp(v) => EtherIpVarsComplete(v); TaggedHas(EtherIpVars, EtherIpKey, v);
    case Agg(v) => AggVarsComplete(v); TaggedHas(AggVars, AggKey, v);
    case Monitor(v) => MonitorVarsComplete(v); TaggedHas(MonitorVars, MonitorKey, v);
    case Mcp(v) => McpVarsComplete(v); TaggedHas(McpVars, McpKey, v);
    case Adv(v) => AdvancedVarsComplete(v); TaggedHas(AdvancedVars, AdvKey, v);
    case Nebula(v) => NebulaVarsComplete(v); TaggedHas(NebulaVars, NebulaKey, v);
  }

  /** `value` when `cond` holds, otherwise no entry. */
  function When(cond: bool, value: string): Option<string> {
    if cond then Some(value) else None
  }

  /** The entry for an `Optional[str]` inserted only when truthy. */
  function IfTruthy(o: Option<string>): Option<string> {
    if TruthyStr(o) then Some(o.value) else None
  }

  // What a table entry says, in the terms of the source's insertions.

  /** Always present, with exactly the value `v`. */
  predicate IsValue(e: Option<string>, v: string) {
    e == Some(v)
  }

  /** Always present, and the rendering of the boolean `b`. */
  predicate IsBool(e: Option<string>, b: bool) {
    e.Some? && (e.value == "true" || e.value == "false") && (e.value == "true" <==> b)
  }

  /** Always present, and a decimal that parses back to `i`. */
  predicate IsInt(e: Option<string>, i: int) {
    e.Some? && ParseInt(e.value) == i
  }

  /** The `if x: data[K] = x` insertion: present exactly when `o` is truthy, with its value. */
  predicate InsertedIfTruthy(e: Option<string>, o: Option<string>) {
    (e.Some? <==> TruthyStr(o)) && (TruthyStr(o) ==> e == o)
  }

  /** The fixed keys; `host` is the Service's cluster DNS name. */
  function FixedEntry(host: string, v: FixedVar): Option<string> {
    match v
    case IS_KUBERNETES => Some("true")
    case INIT_TYPE => Some("prod")
    case ANYLOG_PATH => Some(AnylogPath)
    case LOCAL_SCRIPTS => Some(LocalScriptsPath)
    case TEST_DIR => Some(TestDirPath)
    case PROXY_IP => Some(host)
  }

  function GeneralEntry(g: GeneralSpec, v: GeneralVar): Option<string> {
    match v
    case NODE_TYPE => Some("operator")
    case NODE_NAME => Some(g.nodeName)
    case COMPANY_NAME => Some(g.companyName)
    case DISABLE_CLI => Some(BoolStr(g.disableCli))
    case REMOTE_CLI => Some(BoolStr(g.remoteCli))
    case LICENSE_KEY => None
  }

  function NetEntry(n: NetworkingSpec, v: NetVar): Option<string> {
    match v
    case ANYLOG_SERVER_PORT => Some(IntStr(n.serverPort))
    case ANYLOG_REST_PORT => Some(IntStr(n.restPort))
    case TCP_BIND => Some(BoolStr(n.tcpBind))
    case REST_BIND => Some(BoolStr(n.restBind))
    case BROKER_BIND => Some(BoolStr(n.brokerBind))
    case TCP_THREADS => Some(IntStr(n.tcpThreads))
    case REST_TIMEOUT => Some(IntStr(n.restTimeout))
    case REST_THREADS => Some(IntStr(n.restThreads))
    case BROKER_THREADS => Some(IntStr(n.brokerThreads))
    case OVERLAY_IP => IfTruthy(n.overlayIp)
    case ANYLOG_BROKER_PORT => if TruthyInt(n.brokerPort) then Some(IntStr(n.brokerPort.value)) else None
    case CONFIG_NAME => IfTruthy(n.configName)
    case NIC_TYPE => IfTruthy(n.nicType)
  }

  function GeoEntry(geo: GeolocationSpec, v: GeoVar): Option<string> {
    match v
    case LOCATION => IfTruthy(geo.location)
    case COUNTRY => IfTruthy(geo.country)
    case STATE => IfTruthy(geo.state)
    case CITY => IfTruthy(geo.city)
  }

  function DbEntry(db: DatabaseSpec, v: DbVar): Option<string> {
    match v
    case DB_TYPE => Some(db.dbType)
    case DB_IP => Some(db.host)
    case DB_PORT => Some(IntStr(db.port))
    case AUTOCOMMIT => Some(BoolStr(db.autocommit))
    case SYSTEM_QUERY => Some(BoolStr(db.systemQuery))
    case MEMORY => Some(BoolStr(db.memory))
    case DB_USER => IfTruthy(db.user)
    case DB_PASSWD => None
  }

  function NoSqlEntry(ns: NoSqlSpec, v: NoSqlVar): Option<string> {
    match v
    case ENABLE_NOSQL => Some(BoolStr(ns.enabled))
    case NOSQL_TYPE => Some(ns.dbType)
    case NOSQL_IP => Some(ns.host)
    case NOSQL_PORT => Some(IntStr(ns.port))
    case BLOBS_DBMS => Some(BoolStr(ns.blobsDbms))
    case BLOBS_REUSE => Some(BoolStr(ns.blobsReuse))
    case NOSQL_USER => IfTruthy(ns.user)
    case NOSQL_PASSWD => None
  }

  function ChainEntry(bc: BlockchainSpec, v: ChainVar): Option<string> {
    match v
    case LEDGER_CONN => Some(bc.ledgerConn)
    case SYNC_TIME => Some(bc.syncTime)
    case BLOCKCHAIN_SYNC => Some(bc.syncTime)
    case BLOCKCHAIN_SOURCE => Some(bc.source)
    case BLOCKCHAIN_DESTINATION => Some(bc.destination)
  }

  function OperatorEntry(op: OperatorNodeSpec, v: OperatorVar): Option<string> {
    match v
    case CLUSTER_NAME => Some(op.clusterName)
    case DEFAULT_DBMS => Some(op.defaultDbms)
    case ENABLE_HA => Some(BoolStr(op.enableHa))
    case START_DATE => Some(IntStr(op.startDate))
    case OPERATOR_THREADS => Some(IntStr(op.threads))
    case MEMBER => IfTruthy(op.member)
  }

  function PartitionEntry(pt: PartitioningSpec, v: PartitionVar): Option<string> {
    match v
    case ENABLE_PARTITIONS => Some(BoolStr(pt.enabled))
    case TABLE_NAME => Some(pt.tableName)
    case PARTITION_COLUMN => Some(pt.column)
    case PARTITION_INTERVAL => Some(pt.interval)
    case PARTITION_KEEP => Some(IntStr(pt.keep))
    case PARTITION_SYNC => Some(pt.sync)
  }

  /** MQTT keys; `defaultDbms` is the operator section's default database, MSG_DBMS's fallback. */
  function MqttEntry(mq: MqttSpec, defaultDbms: string, v: MqttVar): Option<string> {
    var msg := mq.message;
    var topic := TruthyStr(msg.topic);
    match v
    case ENABLE_MQTT => Some(BoolStr(mq.enabled))
    case MQTT_PORT => Some(IntStr(mq.port))
    case MQTT_LOG => Some(BoolStr(mq.log))
    case MQTT_BROKER => IfTruthy(mq.broker)
    case MQTT_USER => IfTruthy(mq.user)
    case MQTT_PASSWD => None
    case MSG_TOPIC => IfTruthy(msg.topic)
    case MSG_DBMS => When(topic, if TruthyStr(msg.dbms) then msg.dbms.value else defaultDbms)
    case MSG_TABLE => When(topic, msg.table)
    case MSG_TIMESTAMP_COLUMN => When(topic, msg.timestampColumn)
    case MSG_VALUE_COLUMN => When(topic, msg.valueColumn)
    case MSG_VALUE_COLUMN_TYPE => When(topic, msg.valueColumnType)
  }

  function OpcuaEntry(ua: OpcuaSpec, v: OpcuaVar): Option<string> {
    match v
    case ENABLE_OPCUA => Some(BoolStr(ua.enabled))
    case OPCUA_URL => IfTruthy(ua.url)
    case OPCUA_NODE => IfTruthy(ua.node)
    case OPCUA_FREQUENCY => IfTruthy(ua.frequency)
  }

  function EtherIpEntry(ip: EtheripSpec, v: EtherIpVar): Option<string> {
    match v
    case ENABLE_ETHERIP => Some(BoolStr(ip.enabled))
    case SIMULATOR_MODE => Some(BoolStr(ip.simulatorMode))
    case ETHERIP_URL => IfTruthy(ip.url)
    case ETHERIP_FREQUENCY => IfTruthy(ip.frequency)
  }

  function AggEntry(agg: AggregationsSpec, v: AggVar): Option<string> {
    match v
    case ENABLE_AGGREGATIONS => Some(BoolStr(agg.enabled))
    case AGGREGATION_TIME_COLUMN => Some(agg.timeColumn)
    case AGGREGATION_VALUE_COLUMN => Some(agg.valueColumn)
  }

  function MonitorEntry(mon: MonitoringSpec, v: MonitorVar): Option<string> {
    match v
    case MONITOR_NODES => Some(BoolStr(mon.enabled))
    case STORE_MONITORING => Some(BoolStr(mon.storeMonitoring))
    case SYSLOG_MONITORING => Some(BoolStr(mon.syslogMonitoring))
  }

  function McpEntry(mcp: McpSpec, v: McpVar): Option<string> {
    match v
    case MCP_AUTOSTART => Some(BoolStr(mcp.autostart))
  }

  function AdvancedEntry(adv: AdvancedSpec, v: AdvancedVar): Option<string> {
    match v
    case DEPLOY_LOCAL_SCRIPT => Some(BoolStr(adv.deployLocalScript))
    case DEBUG_MODE => Some(BoolStr(adv.debugMode))
    case COMPRESS_FILE => Some(BoolStr(adv.compressFile))
    case QUERY_POOL => Some(IntStr(adv.queryPool))
    case WRITE_IMMEDIATE => Some(BoolStr(adv.writeImmediate))
    case THRESHOLD_TIME => Some(adv.thresholdTime)
    case THRESHOLD_VOLUME => Some(adv.thresholdVolume)
  }

  function NebulaEntry(neb: NebulaSpec, v: NebulaVar): Option<string> {
    match v
    case ENABLE_NEBULA => Some(BoolStr(neb.enabled))
    case NEBULA_NEW_KEYS => Some(BoolStr(neb.newKeys))
    case IS_LIGHTHOUSE => Some(BoolStr(neb.isLighthouse))
    case CIDR_OVERLAY_ADDRESS => IfTruthy(neb.cidrOverlayAddress)
    case LIGHTHOUSE_IP => IfTruthy(neb.lighthouseIp)
    case LIGHTHOUSE_NODE_IP => IfTruthy(neb.lighthouseNodeIp)
  }

  /**
   * The value the source's `data` holds for `k` when it returns, or `None`
   * when `k` is never inserted: the literal's entries, the optional
   * insertions, and PROXY_IP, each read from its own spec section.
   */
  function Entry(namespace: string, spec: EdgeLakeOperatorSpec, names: ResourceNames, k: EnvKey): Option<string> {
    match k
    case Fixed(v) => FixedEntry(ServiceHost(names, namespace), v)
    case General(v) => GeneralEntry(spec.general, v)
    case Net(v) => NetEntry(spec.networking, v)
    case Geo(v) => GeoEntry(spec.geolocation, v)
    case Db(v) => DbEntry(spec.database, v)
    case NoSql(v) => NoSqlEntry(spec.database.nosql, v)
    case Chain(v) => ChainEntry(spec.blockchain, v)
    case Op(v) => OperatorEntry(spec.operator, v)
    case Part(v) => PartitionEntry(spec.operator.partitioning, v)
    case Mqtt(v) => MqttEntry(spec.mqtt, spec.operator.defaultDbms, v)
    case Opcua(v) => OpcuaEntry(spec.opcua, v)
    case EtherIp(v) => EtherIpEntry(spec.etherip, v)
    case Agg(v) => AggEntry(spec.aggregations, v)
    case Monitor(v) => MonitorEntry(spec.monitoring, v)
    case Mcp(v) => McpEntry(spec.mcp, v)
    case Adv(v) => AdvancedEntry(spec.advanced, v)
    case Nebula(v) => NebulaEntry(spec.nebula, v)
  }

  /** The `data` of the ConfigMap: every key whose table entry is present. */
  function ConfigMapData(namespace: string, spec: EdgeLakeOperatorSpec, names: ResourceNames): map<EnvKey, string> {
    DataFrom(AllEnvKeys, namespace, spec, names)
  }

  /** The entries of `keys` that the table fills, inserted one key at a time. */
  function DataFrom(keys: seq<EnvKey>, namespace: string, spec: EdgeLakeOperatorSpec, names: ResourceNames): map<EnvKey, string>
    decreases |keys|
  {
    if |keys| == 0 then map[]
    else
      var rest := DataFrom(keys[1..], namespace, spec, names);
      var e := Entry(namespace, spec, names, keys[0]);
      if e.Some? then rest[keys[0] := e.value] else rest
  }

  lemma {:induction false} DataFromAt(keys: seq<EnvKey>, namespace: string, spec: EdgeLakeOperatorSpec, names: ResourceNames, k: EnvKey)
    decreases |keys|
    ensures k in DataFrom(keys, namespace, spec, names) <==> k in keys && Entry(namespace, spec, names, k).Some?
    ensures k in DataFrom(keys, namespace, spec, names) ==>
      DataFrom(keys, namespace, spec, names)[k] == Entry(namespace, spec, names, k).value
  {
    if |keys| > 0 {
      DataFromAt(keys[1..], namespace, spec, names, k);
      assert k in keys <==> k == keys[0] || k in keys[1..];
    }
  }

  /** One key of `data`: present exactly when its table entry is, with the entry's value. */
  lemma DataAt(namespace: string, spec: EdgeLakeOperatorSpec, names: ResourceNames, k: EnvKey)
    ensures k in ConfigMapData(namespace, spec, names) <==> Entry(namespace, spec, names, k).Some?
    ensures k in ConfigMapData(namespace, spec, names) ==>
      ConfigMapData(namespace, spec, names)[k] == Entry(namespace, spec, names, k).value
  {
    AllEnvKeysComplete(k);
    DataFromAt(AllEnvKeys, namespace, spec, names, k);
  }

  /** `data` is the table: its keys are the present entries, its values their values. */
  lemma DataIsTable(namespace: string, spec: EdgeLakeOperatorSpec, names: ResourceNames)
    ensures forall k: EnvKey :: k in ConfigMapData(namespace, spec, names) <==> Entry(namespace, spec, names, k).Some?
    ensures forall k | k in ConfigMapData(namespace, spec, names) ::
      ConfigMapData(namespace, spec, names)[k] == Entry(namespace, spec, names, k).value
  {
    forall k: EnvKey
      ensures k in ConfigMapData(namespace, spec, names) <==> Entry(namespace, spec, names, k).Some?
      ensures k in ConfigMapData(namespace, spec, names) ==>
        ConfigMapData(namespace, spec, names)[k] == Entry(namespace, spec, names, k).value
    {
      DataAt(namespace, spec, names, k);
    }
  }

  /**
   * `build_configmap`: named `resource_names["configmap"]` in the namespace,
   * with the standard labels; IS_KUBERNETES, INIT_TYPE, NODE_TYPE and the
   * service-discovery PROXY_IP are always present.
   */
  function BuildConfigMap(name: string, namespace: string, spec: EdgeLakeOperatorSpec, names: ResourceNames): (m: Manifest)
    ensures m.ConfigMap? && KindOf(m) == Some(ConfigMapKind)
    ensures m.meta == ObjectMeta(names.configmap, namespace, Labels(name), None, false)
    ensures Fixed(IS_KUBERNETES) in m.data && m.data[Fixed(IS_KUBERNETES)] == "true"
    ensures Fixed(INIT_TYPE) in m.data && m.data[Fixed(INIT_TYPE)] == "prod"
    ensures General(NODE_TYPE) in m.data && m.data[General(NODE_TYPE)] == "operator"
    ensures Fixed(PROXY_IP) in m.data && m.data[Fixed(PROXY_IP)] == ServiceHost(names, namespace)
  {
    DataAt(namespace, spec, names, Fixed(IS_KUBERNETES));
    DataAt(namespace, spec, names, Fixed(INIT_TYPE));
    DataAt(namespace, spec, names, General(NODE_TYPE));
    DataAt(namespace, spec, names, Fixed(PROXY_IP));
    ConfigMap(ObjectMeta(names.configmap, namespace, Labels(name), None, false), ConfigMapData(namespace, spec, names))
  }

  /** The table has no entry for any credential variable. */
  lemma CredentialEntriesAbsent(namespace: string, spec: EdgeLakeOperatorSpec, names: ResourceNames)
    ensures forall k | IsCredentialKey(k) :: Entry(namespace, spec, names, k).None?
  {
  }

  /** No credential variable is ever a key of the ConfigMap; passwords and the licence key go to the Secret. */
  lemma NoCredentialKeys(namespace: string, spec: EdgeLakeOperatorSpec, names: ResourceNames)
    ensures forall k | k in ConfigMapData(namespace, spec, names) :: !IsCredentialKey(k)
  {
    CredentialEntriesAbsent(namespace, spec, names);
    forall k | k in ConfigMapData(namespace, spec, names)
      ensures !IsCredentialKey(k)
    {
      DataAt(namespace, spec, names, k);
    }
  }

  /** Networking: ports and thread counts in decimal, binds as booleans, the optional keys only when truthy. */
  lemma NetworkingEntries(n: NetworkingSpec)
    ensures IsInt(NetEntry(n, ANYLOG_SERVER_PORT), n.serverPort) && IsInt(NetEntry(n, ANYLOG_REST_PORT), n.restPort)
    ensures IsInt(NetEntry(n, TCP_THREADS), n.tcpThreads) && IsInt(NetEntry(n, REST_TIMEOUT), n.restTimeout)
    ensures IsInt(NetEntry(n, REST_THREADS), n.restThreads) && IsInt(NetEntry(n, BROKER_THREADS), n.brokerThreads)
    ensures IsBool(NetEntry(n, TCP_BIND), n.tcpBind) && IsBool(NetEntry(n, REST_BIND), n.restBind)
    ensures IsBool(NetEntry(n, BROKER_BIND), n.brokerBind)
    ensures InsertedIfTruthy(NetEntry(n, OVERLAY_IP), n.overlayIp)
    ensures InsertedIfTruthy(NetEntry(n, CONFIG_NAME), n.configName)
    ensures InsertedIfTruthy(NetEntry(n, NIC_TYPE), n.nicType)
    ensures NetEntry(n, ANYLOG_BROKER_PORT).Some? <==> TruthyInt(n.brokerPort)
    ensures TruthyInt(n.brokerPort) ==> IsInt(NetEntry(n, ANYLOG_BROKER_PORT), n.brokerPort.value)
  {
    IntStrRoundTrip(n.serverPort);
    IntStrRoundTrip(n.restPort);
    IntStrRoundTrip(n.tcpThreads);
    IntStrRoundTrip(n.restTimeout);
    IntStrRoundTrip(n.restThreads);
    IntStrRoundTrip(n.brokerThreads);
    if n.brokerPort.Some? {
      IntStrRoundTrip(n.brokerPort.value);
    }
  }

  /** Database: the user only when truthy, never the password. */
  lemma DatabaseEntries(db: DatabaseSpec)
    ensures IsValue(DbEntry(db, DB_TYPE), db.dbType) && IsValue(DbEntry(db, DB_IP), db.host)
    ensures IsInt(DbEntry(db, DB_PORT), db.port)
    ensures IsBool(DbEntry(db, AUTOCOMMIT), db.autocommit) && IsBool(DbEntry(db, SYSTEM_QUERY), db.systemQuery)
    ensures IsBool(DbEntry(db, MEMORY), db.memory)
    ensures InsertedIfTruthy(DbEntry(db, DB_USER), db.user)
    ensures DbEntry(db, DB_PASSWD).None?
  {
    IntStrRoundTrip(db.port);
  }

  /** NoSQL: the user only when truthy, never the password. */
  lemma NoSqlEntries(ns: NoSqlSpec)
    ensures IsBool(NoSqlEntry(ns, ENABLE_NOSQL), ns.enabled)
    ensures IsValue(NoSqlEntry(ns, NOSQL_TYPE), ns.dbType) && IsValue(NoSqlEntry(ns, NOSQL_IP), ns.host)
    ensures IsInt(NoSqlEntry(ns, NOSQL_PORT), ns.port)
    ensures IsBool(NoSqlEntry(ns, BLOBS_DBMS), ns.blobsDbms) && IsBool(NoSqlEntry(ns, BLOBS_REUSE), ns.blobsReuse)
    ensures InsertedIfTruthy(NoSqlEntry(ns, NOSQL_USER), ns.user)
    ensures NoSqlEntry(ns, NOSQL_PASSWD).None?
  {
    IntStrRoundTrip(ns.port);
  }

  /** Blockchain and operator: SYNC_TIME and BLOCKCHAIN_SYNC both carry the sync time; MEMBER only when truthy. */
  lemma LedgerEntries(bc: BlockchainSpec, op: OperatorNodeSpec)
    ensures IsValue(ChainEntry(bc, LEDGER_CONN), bc.ledgerConn)
    ensures IsValue(ChainEntry(bc, SYNC_TIME), bc.syncTime) && IsValue(ChainEntry(bc, BLOCKCHAIN_SYNC), bc.syncTime)
    ensures IsValue(ChainEntry(bc, BLOCKCHAIN_SOURCE), bc.source)
    ensures IsValue(ChainEntry(bc, BLOCKCHAIN_DESTINATION), bc.destination)
    ensures IsValue(OperatorEntry(op, CLUSTER_NAME), op.clusterName)
    ensures IsValue(OperatorEntry(op, DEFAULT_DBMS), op.defaultDbms)
    ensures IsBool(OperatorEntry(op, ENABLE_HA), op.enableHa)
    ensures IsInt(OperatorEntry(op, START_DATE), op.startDate) && IsInt(OperatorEntry(op, OPERATOR_THREADS), op.threads)
    ensures InsertedIfTruthy(OperatorEntry(op, MEMBER), op.member)
  {
    IntStrRoundTrip(op.startDate);
    IntStrRoundTrip(op.threads);
  }

  /** Partitioning keys carry the partitioning section. */
  lemma PartitionEntries(pt: PartitioningSpec)
    ensures IsBool(PartitionEntry(pt, ENABLE_PARTITIONS), pt.enabled)
    ensures IsValue(PartitionEntry(pt, TABLE_NAME), pt.tableName) && IsValue(PartitionEntry(pt, PARTITION_COLUMN), pt.column)
    ensures IsValue(PartitionEntry(pt, PARTITION_INTERVAL), pt.interval)
    ensures IsInt(PartitionEntry(pt, PARTITION_KEEP), pt.keep) && IsValue(PartitionEntry(pt, PARTITION_SYNC), pt.sync)
  {
    IntStrRoundTrip(pt.keep);
  }

  /**
   * MQTT: broker and user only when truthy; the six message keys together,
   * exactly when the topic is truthy, with MSG_DBMS falling back to the
   * default database; never the password.
   */
  lemma MqttEntries(mq: MqttSpec, defaultDbms: string)
    ensures IsBool(MqttEntry(mq, defaultDbms, ENABLE_MQTT), mq.enabled)
    ensures IsInt(MqttEntry(mq, defaultDbms, MQTT_PORT), mq.port) && IsBool(MqttEntry(mq, defaultDbms, MQTT_LOG), mq.log)
    ensures InsertedIfTruthy(MqttEntry(mq, defaultDbms, MQTT_BROKER), mq.broker)
    ensures InsertedIfTruthy(MqttEntry(mq, defaultDbms, MQTT_USER), mq.user)
    ensures MqttEntry(mq, defaultDbms, MQTT_PASSWD).None?
    ensures InsertedIfTruthy(MqttEntry(mq, defaultDbms, MSG_TOPIC), mq.message.topic)
    ensures forall v | v in {MSG_DBMS, MSG_TABLE, MSG_TIMESTAMP_COLUMN, MSG_VALUE_COLUMN, MSG_VALUE_COLUMN_TYPE} ::
      MqttEntry(mq, defaultDbms, v).Some? <==> TruthyStr(mq.message.topic)
    ensures var msg := mq.message; TruthyStr(msg.topic) ==>
      && IsValue(MqttEntry(mq, defaultDbms, MSG_DBMS), if TruthyStr(msg.dbms) then msg.dbms.value else defaultDbms)
      && IsValue(MqttEntry(mq, defaultDbms, MSG_TABLE), msg.table)
      && IsValue(MqttEntry(mq, defaultDbms, MSG_TIMESTAMP_COLUMN), msg.timestampColumn)
      && IsValue(MqttEntry(mq, defaultDbms, MSG_VALUE_COLUMN), msg.valueColumn)
      && IsValue(MqttEntry(mq, defaultDbms, MSG_VALUE_COLUMN_TYPE), msg.valueColumnType)
  {
    IntStrRoundTrip(mq.port);
  }

  /** Monitoring, MCP and advanced settings are always present. */
  lemma NodeEntries(mon: MonitoringSpec, mcp: McpSpec, adv: AdvancedSpec)
    ensures IsBool(MonitorEntry(mon, MONITOR_NODES), mon.enabled)
    ensures IsBool(MonitorEntry(mon, STORE_MONITORING), mon.storeMonitoring)
    ensures IsBool(MonitorEntry(mon, SYSLOG_MONITORING), mon.syslogMonitoring)
    ensures IsBool(McpEntry(mcp, MCP_AUTOSTART), mcp.autostart)
    ensures IsBool(AdvancedEntry(adv, DEPLOY_LOCAL_SCRIPT), adv.deployLocalScript)
    ensures IsBool(AdvancedEntry(adv, DEBUG_MODE), adv.debugMode)
    ensures IsBool(AdvancedEntry(adv, COMPRESS_FILE), adv.compressFile)
    ensures IsInt(AdvancedEntry(adv, QUERY_POOL), adv.queryPool)
    ensures IsBool(AdvancedEntry(adv, WRITE_IMMEDIATE), adv.writeImmediate)
    ensures IsValue(AdvancedEntry(adv, THRESHOLD_TIME), adv.thresholdTime)
    ensures IsValue(AdvancedEntry(adv, THRESHOLD_VOLUME), adv.thresholdVolume)
  {
    IntStrRoundTrip(adv.queryPool);
  }

  /** The spec with every password and the licence key (inline values and references) removed. */
  function EraseCredentials(s: EdgeLakeOperatorSpec): (r: EdgeLakeOperatorSpec)
    ensures !HasInlineSecrets(r)
    ensures forall i | 0 <= i < 4 :: Credentials(r)[i] == Credential(None, None)
  {
    s.(general := s.general.(licenseKey := None, licenseKeySecretRef := None),
       database := s.database.(password := None, passwordSecretRef := None,
                               nosql := s.database.nosql.(password := None, passwordSecretRef := None)),
       mqtt := s.mqtt.(password := None, passwordSecretRef := None))
  }

  /** Erasing the credentials changes no table entry. */
  lemma EntryIgnoresCredentials(namespace: string, spec: EdgeLakeOperatorSpec, names: ResourceNames, k: EnvKey)
    ensures Entry(namespace, spec, names, k) == Entry(namespace, EraseCredentials(spec), names, k)
  {
    var e := EraseCredentials(spec);
    match k
    case General(v) => assert GeneralEntry(spec.general, v) == GeneralEntry(e.general, v);
    case Db(v) => assert DbEntry(spec.database, v) == DbEntry(e.database, v);
    case NoSql(v) => assert NoSqlEntry(spec.database.nosql, v) == NoSqlEntry(e.database.nosql, v);
    case Mqtt(v) => assert MqttEntry(spec.mqtt, spec.operator.defaultDbms, v) == MqttEntry(e.mqtt, e.operator.defaultDbms, v);
    case _ =>
  }

  /** No credential value reaches the ConfigMap: it is the same with all credentials erased. */
  lemma ConfigMapIgnoresCredentials(name: string, namespace: string, spec: EdgeLakeOperatorSpec, names: ResourceNames)
    ensures BuildConfigMap(name, namespace, spec, names) == BuildConfigMap(name, namespace, EraseCredentials(spec), names)
  {
    var e := EraseCredentials(spec);
    var d, d' := ConfigMapData(namespace, spec, names), ConfigMapData(namespace, e, names);
    forall k: EnvKey
      ensures (k in d <==> k in d') && (k in d ==> d[k] == d'[k])
    {
      DataAt(namespace, spec, names, k);
      DataAt(namespace, e, names, k);
      EntryIgnoresCredentials(namespace, spec, names, k);
    }
    assert d == d';
  }
}
