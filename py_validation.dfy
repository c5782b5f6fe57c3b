/**
 * `validate_spec` and `validate_ledger_connection` of the Python operator.
 * The semantic rules are listed once, each with the condition under which
 * it is violated and the message it appends; the validator appends the
 * messages of the violated rules in the fixed rule order, never stopping
 * early.
 */
module PyValidation {
  import opened Common
  import opened PySpec

  const ClusterIpType := "ClusterIP"
  const NodePortType := "NodePort"
  const LoadBalancerType := "LoadBalancer"
  const ValidServiceTypes: seq<string> := [ClusterIpType, NodePortType, LoadBalancerType]

  const SqliteType := "sqlite"
  const PsqlType := "psql"

  const ServerPortField := "serverPort"
  const RestPortField := "restPort"
  const BrokerPortField := "brokerPort"

  predicate InNodePortRange(p: int) {
    30000 <= p <= 32767
  }

  /** Two of the exposed ports coincide; the broker port counts only when truthy. */
  predicate PortsClash(n: NetworkingSpec) {
    n.serverPort == n.restPort
    || (TruthyInt(n.brokerPort) && (n.brokerPort.value == n.serverPort || n.brokerPort.value == n.restPort))
  }

  /**
   * Python's `re.match` with a pattern ending in `$`: the anchor also matches
   * just before one final newline, which is then left out of the match.
   */
  function WithoutFinalNewline(s: string): string {
    if |s| > 0 && s[|s| - 1] == '\n' then s[..|s| - 1] else s
  }

  /** `re.match(r"^[a-zA-Z0-9.-]+:[0-9]+$", s)` succeeds. */
  predicate LedgerPatternMatches(s: string) {
    IsLedgerForm(WithoutFinalNewline(s))
  }

  /** The messages one rule contributes: its message exactly when it is violated. */
  function ErrorIf(violated: bool, message: string): (e: seq<string>)
    ensures |e| <= 1 && (|e| == 1 <==> violated) && (|e| == 1 ==> e[0] == message)
  {
    if violated then [message] else []
  }

  // Message texts are named pieces, so that proofs about the message lists
  // never need to look inside them.
  const NetworkingPrefix := "spec.networking."
  const RangeInfix := " must be 1-65535, got "
  const NodePortInfix := " should be in NodePort range 30000-32767, got "

  function RangeMessage(field: string, port: int): string {
    NetworkingPrefix + field + RangeInfix + IntStr(port)
  }

  function NodePortMessage(field: string, port: int): string {
    NetworkingPrefix + field + NodePortInfix + IntStr(port)
  }

  const NodeNameRequired := "spec.general.nodeName is required"
  const CompanyNameRequired := "spec.general.companyName is required"
  const LedgerConnRequired := "spec.blockchain.ledgerConn is required"
  const ClusterNameRequired := "spec.operator.clusterName is required"
  const DefaultDbmsRequired := "spec.operator.defaultDbms is required"
  const PsqlUserRequired := "spec.database.user is required when using PostgreSQL"
  const PsqlPasswordRequired := "spec.database.password or passwordSecretRef is required when using PostgreSQL"
  const MqttBrokerRequired := "spec.mqtt.broker is required when MQTT is enabled"
  const OpcuaUrlRequired := "spec.opcua.url is required when OPC-UA is enabled"
  const EtheripUrlRequired := "spec.etherip.url is required when EtherNet/IP is enabled (unless simulatorMode is true)"
  const PartitionKeepMessage := "spec.operator.partitioning.keep must be at least 1"
  const PortsUniqueMessage := "Ports must be unique (serverPort, restPort, brokerPort)"

  const LedgerFormatPrefix := "spec.blockchain.ledgerConn must be in format 'host:port', got '"
  const DbTypePrefix := "spec.database.type must be 'sqlite' or 'psql', got '"
  const ServiceTypePrefix := "spec.networking.serviceType must be one of ['ClusterIP', 'NodePort', 'LoadBalancer'], got '"
  const Quote := "'"

  function LedgerFormatMessage(ledgerConn: string): string {
    LedgerFormatPrefix + ledgerConn + Quote
  }

  function DbTypeMessage(dbType: string): string {
    DbTypePrefix + dbType + Quote
  }

  function ServiceTypeMessage(serviceType: string): string {
    ServiceTypePrefix + serviceType + Quote
  }

  // Each group of rules is stated as what it appends to the messages so far.

  /** Required fields: each empty one is reported. */
  function AddRequired(errors: seq<string>, spec: EdgeLakeOperatorSpec): seq<string> {
    errors
      + ErrorIf(spec.general.nodeName == "", NodeNameRequired)
      + ErrorIf(spec.general.companyName == "", CompanyNameRequired)
      + ErrorIf(spec.blockchain.ledgerConn == "", LedgerConnRequired)
      + ErrorIf(spec.operator.clusterName == "", ClusterNameRequired)
      + ErrorIf(spec.operator.defaultDbms == "", DefaultDbmsRequired)
  }

  /** Port ranges (the broker port only when truthy) and one message if two ports coincide. */
  function AddPorts(errors: seq<string>, n: NetworkingSpec): seq<string> {
    errors
      + ErrorIf(!PortInRange(n.serverPort), RangeMessage(ServerPortField, n.serverPort))
      + ErrorIf(!PortInRange(n.restPort), RangeMessage(RestPortField, n.restPort))
      + ErrorIf(TruthyInt(n.brokerPort) && !PortInRange(n.brokerPort.value),
                RangeMessage(BrokerPortField, if n.brokerPort.Some? then n.brokerPort.value else 0))
      + ErrorIf(PortsClash(n), PortsUniqueMessage)
  }

  /** The ledger format, the database type, and PostgreSQL's user and password. */
  function AddStorage(errors: seq<string>, spec: EdgeLakeOperatorSpec): seq<string> {
    var db := spec.database;
    errors
      + ErrorIf(!LedgerPatternMatches(spec.blockchain.ledgerConn), LedgerFormatMessage(spec.blockchain.ledgerConn))
      + ErrorIf(db.dbType != SqliteType && db.dbType != PsqlType, DbTypeMessage(db.dbType))
      + ErrorIf(db.dbType == PsqlType && !TruthyStr(db.user), PsqlUserRequired)
      + ErrorIf(db.dbType == PsqlType && !TruthyStr(db.password) && db.passwordSecretRef.None?,
                PsqlPasswordRequired)
  }

  /** Enabled features need their endpoint: MQTT a broker, OPC-UA a url, EtherIP a url unless simulated. */
  function AddFeatures(errors: seq<string>, spec: EdgeLakeOperatorSpec): seq<string> {
    errors
      + ErrorIf(spec.mqtt.enabled && !TruthyStr(spec.mqtt.broker), MqttBrokerRequired)
      + ErrorIf(spec.opcua.enabled && !TruthyStr(spec.opcua.url), OpcuaUrlRequired)
      + ErrorIf(spec.etherip.enabled && !TruthyStr(spec.etherip.url) && !spec.etherip.simulatorMode,
                EtheripUrlRequired)
  }

  /** The service type, and under NodePort the node-port range of the server and REST ports (not the broker's). */
  function AddService(errors: seq<string>, n: NetworkingSpec): seq<string> {
    errors
      + ErrorIf(n.serviceType !in ValidServiceTypes, ServiceTypeMessage(n.serviceType))
      + ErrorIf(n.serviceType == NodePortType && !InNodePortRange(n.serverPort), NodePortMessage(ServerPortField, n.serverPort))
      + ErrorIf(n.serviceType == NodePortType && !InNodePortRange(n.restPort), NodePortMessage(RestPortField, n.restPort))
  }

  function AddPartition(errors: seq<string>, p: PartitioningSpec): seq<string> {
    errors + ErrorIf(p.enabled && p.keep < 1, PartitionKeepMessage)
  }

  /** The messages of all violated rules, in rule order. */
  function ValidationErrors(spec: EdgeLakeOperatorSpec): seq<string> {
    var n := spec.networking;
    AddPartition(AddService(AddFeatures(AddStorage(AddPorts(AddRequired([], spec), n), spec), spec), n),
                 spec.operator.partitioning)
  }

  // What each group of rules demands of a spec that passes it.

  predicate RequiredHold(spec: EdgeLakeOperatorSpec) {
    && spec.general.nodeName != "" && spec.general.companyName != "" && spec.blockchain.ledgerConn != ""
    && spec.operator.clusterName != "" && spec.operator.defaultDbms != ""
  }

  predicate PortsHold(n: NetworkingSpec) {
    && PortInRange(n.serverPort) && PortInRange(n.restPort)
    && (TruthyInt(n.brokerPort) ==> PortInRange(n.brokerPort.value))
    && !PortsClash(n)
  }

  predicate StorageHold(spec: EdgeLakeOperatorSpec) {
    var db := spec.database;
    && LedgerPatternMatches(spec.blockchain.ledgerConn)
    && db.dbType in [SqliteType, PsqlType]
    && (db.dbType == PsqlType ==> TruthyStr(db.user) && (TruthyStr(db.password) || db.passwordSecretRef.Some?))
  }

  predicate FeaturesHold(spec: EdgeLakeOperatorSpec) {
    && (spec.mqtt.enabled ==> TruthyStr(spec.mqtt.broker))
    && (spec.opcua.enabled ==> TruthyStr(spec.opcua.url))
    && (spec.etherip.enabled ==> TruthyStr(spec.etherip.url) || spec.etherip.simulatorMode)
  }

  predicate ServiceHold(n: NetworkingSpec) {
    && n.serviceType in ValidServiceTypes
    && (n.serviceType == NodePortType ==> InNodePortRange(n.serverPort) && InNodePortRange(n.restPort))
  }

  /** Every rule holds. */
  predicate Accepted(spec: EdgeLakeOperatorSpec) {
    && RequiredHold(spec) && PortsHold(spec.networking) && StorageHold(spec) && FeaturesHold(spec)
    && ServiceHold(spec.networking)
    && (spec.operator.partitioning.enabled ==> spec.operator.partitioning.keep >= 1)
  }

  // A group adds no message exactly when its rules hold.

  lemma RequiredEmpty(errors: seq<string>, spec: EdgeLakeOperatorSpec)
    ensures AddRequired(errors, spec) == [] <==> errors == [] && RequiredHold(spec)
  {
  }

  lemma PortsEmpty(errors: seq<string>, n: NetworkingSpec)
    ensures AddPorts(errors, n) == [] <==> errors == [] && PortsHold(n)
  {
  }

  lemma StorageEmpty(errors: seq<string>, spec: EdgeLakeOperatorSpec)
    ensures AddStorage(errors, spec) == [] <==> errors == [] && StorageHold(spec)
  {
  }

  lemma FeaturesEmpty(errors: seq<string>, spec: EdgeLakeOperatorSpec)
    ensures AddFeatures(errors, spec) == [] <==> errors == [] && FeaturesHold(spec)
  {
  }

  lemma ServiceEmpty(errors: seq<string>, n: NetworkingSpec)
    ensures AddService(errors, n) == [] <==> errors == [] && ServiceHold(n)
  {
  }

  // The groups only append, so a message once present stays present.

  lemma StorageKeeps(x: string, errors: seq<string>, spec: EdgeLakeOperatorSpec)
    requires x in errors
    ensures x in AddStorage(errors, spec)
  {
  }

  lemma FeaturesKeep(x: string, errors: seq<string>, spec: EdgeLakeOperatorSpec)
    requires x in errors
    ensures x in AddFeatures(errors, spec)
  {
  }

  lemma ServiceKeeps(x: string, errors: seq<string>, n: NetworkingSpec)
    requires x in errors
    ensures x in AddService(errors, n)
  {
  }

  lemma PartitionKeeps(x: string, errors: seq<string>, p: PartitioningSpec)
    requires x in errors
    ensures x in AddPartition(errors, p)
  {
  }

  /** No message at all exactly when every rule holds. */
  lemma ValidIffAccepted(spec: EdgeLakeOperatorSpec)
    ensures ValidationErrors(spec) == [] <==> Accepted(spec)
  {
    var n := spec.networking;
    var e1 := AddRequired([], spec);
    var e2 := AddPorts(e1, n);
    var e3 := AddStorage(e2, spec);
    var e4 := AddFeatures(e3, spec);
    var e5 := AddService(e4, n);
    RequiredEmpty([], spec);
    PortsEmpty(e1, n);
    StorageEmpty(e2, spec);
    FeaturesEmpty(e3, spec);
    ServiceEmpty(e4, n);
    assert ValidationErrors(spec) == AddPartition(e5, spec.operator.partitioning);
  }

  /**
   * Under NodePort a duplicated port outside 30000..32767 is reported three
   * times over: once as a clash and once for each of the two ports.
   */
  lemma DuplicateNodePortReportsRange(spec: EdgeLakeOperatorSpec)
    requires spec.networking.serviceType == NodePortType
    requires spec.networking.serverPort == spec.networking.restPort && !InNodePortRange(spec.networking.serverPort)
    ensures PortsUniqueMessage in ValidationErrors(spec)
    ensures NodePortMessage(ServerPortField, spec.networking.serverPort) in ValidationErrors(spec)
    ensures NodePortMessage(RestPortField, spec.networking.restPort) in ValidationErrors(spec)
  {
    var n := spec.networking;
    var e2 := AddPorts(AddRequired([], spec), n);
    assert PortsUniqueMessage in e2;
    var e3 := AddStorage(e2, spec);
    StorageKeeps(PortsUniqueMessage, e2, spec);
    var e4 := AddFeatures(e3, spec);
    FeaturesKeep(PortsUniqueMessage, e3, spec);
    var e5 := AddService(e4, n);
    ServiceKeeps(PortsUniqueMessage, e4, n);
    assert NodePortMessage(ServerPortField, n.serverPort) in e5 && NodePortMessage(RestPortField, n.restPort) in e5;
    PartitionKeeps(PortsUniqueMessage, e5, spec.operator.partitioning);
    PartitionKeeps(NodePortMessage(ServerPortField, n.serverPort), e5, spec.operator.partitioning);
    PartitionKeeps(NodePortMessage(RestPortField, n.restPort), e5, spec.operator.partitioning);
  }

  /** Under ClusterIP, duplicated in-range ports give the clash message and no range message. */
  lemma DuplicateClusterIpPortsOnlyClash(errors: seq<string>, n: NetworkingSpec)
    requires n.serviceType == ClusterIpType
    requires n.serverPort == n.restPort && PortInRange(n.serverPort) && !TruthyInt(n.brokerPort)
    ensures AddPorts(errors, n) == errors + [PortsUniqueMessage]
    ensures AddService(errors, n) == errors
  {
  }

  /** A spec the parser accepts passes the required-field, port-range and ledger-format rules. */
  lemma WellFormedPassesParsedRules(errors: seq<string>, spec: EdgeLakeOperatorSpec)
    requires WellFormed(spec)
    ensures AddRequired(errors, spec) == errors
    ensures AddPorts(errors, spec.networking) == errors + ErrorIf(PortsClash(spec.networking), PortsUniqueMessage)
    ensures LedgerPatternMatches(spec.blockchain.ledgerConn)
  {
    var s := spec.blockchain.ledgerConn;
    var k :| 0 <= k < |s| && LedgerSplitAt(s, k);
    assert s[|s| - 1] == s[k + 1..][|s| - k - 2];
    assert WithoutFinalNewline(s) == s;
  }

  // The checks as the validator performs them.

  /** The index of the first ':' of `s`. */
  function FirstColon(s: string): (k: Option<nat>)
    ensures k.Some? ==> k.value < |s| && s[k.value] == ':' && forall i | 0 <= i < k.value :: s[i] != ':'
    ensures k.None? ==> forall i | 0 <= i < |s| :: s[i] != ':'
  {
    if |s| == 0 then None
    else if s[0] == ':' then Some(0)
    else match FirstColon(s[1..])
      case None => None
      case Some(k) => Some(k + 1)
  }

  /**
   * The pattern matcher's view: host characters run up to the first ':',
   * the rest are digits; the anchor may stop before a final newline.
   */
  function LedgerMatch(s: string): (port: Option<nat>) {
    var t := WithoutFinalNewline(s);
    match FirstColon(t)
    case None => None
    case Some(k) => if LedgerSplitAt(t, k) then Some(ParseDigits(t[k + 1..])) else None
  }

  /** The host part holds no ':', so the only possible split is at the first colon. */
  lemma SplitIsFirstColon(t: string, k: int)
    requires LedgerSplitAt(t, k)
    ensures FirstColon(t) == Some(k)
  {
    var f := FirstColon(t);
    assert forall i | 0 <= i < k :: t[i] == t[..k][i] && IsLedgerHostChar(t[..k][i]);
  }

  /** The matcher succeeds exactly when the pattern matches. */
  lemma LedgerMatchIff(s: string)
    ensures LedgerMatch(s).Some? <==> LedgerPatternMatches(s)
  {
    var t := WithoutFinalNewline(s);
    if LedgerPatternMatches(s) {
      var k :| 0 <= k < |t| && LedgerSplitAt(t, k);
      SplitIsFirstColon(t, k);
    }
  }

  /**
   * `validate_ledger_connection`: `None` exactly when the pattern matches and
   * the port after the colon is in 1..65535; otherwise the format message
   * or, when the pattern matches, the port message with the parsed port.
   */
  function ValidateLedgerConnection(s: string): (r: Option<string>)
    ensures r.None? <==> exists k | 0 <= k < |WithoutFinalNewline(s)| ::
      LedgerSplitAt(WithoutFinalNewline(s), k) && PortInRange(ParseDigits(WithoutFinalNewline(s)[k + 1..]))
    ensures !LedgerPatternMatches(s) ==> r == Some("Invalid ledger connection format: " + s)
    ensures forall k | 0 <= k < |WithoutFinalNewline(s)| && LedgerSplitAt(WithoutFinalNewline(s), k) ::
      r.Some? ==> r == Some("Invalid port in ledger connection: " + IntStr(ParseDigits(WithoutFinalNewline(s)[k + 1..])))
  {
    LedgerMatchIff(s);
    var t := WithoutFinalNewline(s);
    match LedgerMatch(s)
    case None => Some("Invalid ledger connection format: " + s)
    case Some(port) =>
      var k := FirstColon(t).value;
      assert LedgerSplitAt(t, k) && port == ParseDigits(t[k + 1..]);
      SplitPortUnique(t, k);
      if !(1 <= port <= 65535) then Some("Invalid port in ledger connection: " + IntStr(port)) else None
  }

  lemma SplitPortUnique(t: string, k: int)
    requires LedgerSplitAt(t, k)
    ensures forall j | 0 <= j < |t| && LedgerSplitAt(t, j) :: j == k
  {
    forall j | 0 <= j < |t| && LedgerSplitAt(t, j)
      ensures j == k
    {
      SplitIsFirstColon(t, j);
      SplitIsFirstColon(t, k);
    }
  }

  /** The format rule of `validate_spec` does not check the port: `"ledger:0"` passes it and fails here. */
  lemma FormatRuleIgnoresPortRange()
    ensures LedgerPatternMatches("ledger:0") && ValidateLedgerConnection("ledger:0").Some?
  {
    var s := "ledger:0";
    assert LedgerSplitAt(s, 6);
    SplitPortUnique(s, 6);
  }

  /** One `if <violated>: errors.append(<message>)` step. */
  method AppendIf(errors: seq<string>, violated: bool, message: string) returns (errors': seq<string>)
    ensures errors' == errors + ErrorIf(violated, message)
  {
    errors' := errors;
    if violated {
      errors' := errors' + [message];
    }
  }

  /** The five required-field checks. */
  method CheckRequired(errors: seq<string>, spec: EdgeLakeOperatorSpec) returns (errors': seq<string>)
    ensures errors' == AddRequired(errors, spec)
  {
    errors' := AppendIf(errors, spec.general.nodeName == "", NodeNameRequired);
    errors' := AppendIf(errors', spec.general.companyName == "", CompanyNameRequired);
    errors' := AppendIf(errors', spec.blockchain.ledgerConn == "", LedgerConnRequired);
    errors' := AppendIf(errors', spec.operator.clusterName == "", ClusterNameRequired);
    errors' := AppendIf(errors', spec.operator.defaultDbms == "", DefaultDbmsRequired);
  }

  /**
   * The port-range checks and the uniqueness check, which compares the
   * number of ports with the size of the set of ports.
   */
  method CheckPorts(errors: seq<string>, n: NetworkingSpec) returns (errors': seq<string>)
    ensures errors' == AddPorts(errors, n)
  {
    errors' := AppendIf(errors, !(1 <= n.serverPort <= 65535), RangeMessage(ServerPortField, n.serverPort));
    errors' := AppendIf(errors', !(1 <= n.restPort <= 65535), RangeMessage(RestPortField, n.restPort));
    errors' := AppendIf(errors', TruthyInt(n.brokerPort) && !(1 <= n.brokerPort.value <= 65535), 
                        RangeMessage(BrokerPortField, if n.brokerPort.Some? then n.brokerPort.value else 0));
    var ports := [n.serverPort, n.restPort];
    if TruthyInt(n.brokerPort) {
      ports := ports + [n.brokerPort.value];
    }
    var unique := set p | p in ports;
    DistinctCount(ports, unique);
    errors' := AppendIf(errors', |ports| != |unique|, PortsUniqueMessage);
  }

  /** `len(ports) != len(set(ports))` says two of the (two or three) ports coincide. */
  lemma DistinctCount(ports: seq<int>, unique: set<int>)
    requires 2 <= |ports| <= 3 && unique == set p | p in ports
    ensures |ports| != |unique| <==> ports[0] == ports[1] || (|ports| == 3 && (ports[2] == ports[0] || ports[2] == ports[1]))
  {
    if |ports| == 2 {
      assert unique == {ports[0], ports[1]};
    } else {
      assert unique == {ports[0], ports[1], ports[2]};
      DistinctCountThree(ports[0], ports[1], ports[2]);
    }
  }

  lemma DistinctCountThree(a: int, b: int, c: int)
    ensures |{a, b, c}| != 3 <==> a == b || c == a || c == b
  {
    if a == b {
      assert {a, b, c} == {a, c};
    } else if c == a || c == b {
      assert {a, b, c} == {a, b};
    }
  }

  /** The ledger format check (by the pattern matcher) and the database checks. */
  method CheckStorage(errors: seq<string>, spec: EdgeLakeOperatorSpec) returns (errors': seq<string>)
    ensures errors' == AddStorage(errors, spec)
  {
    LedgerMatchIff(spec.blockchain.ledgerConn);
    errors' := AppendIf(errors, LedgerMatch(spec.blockchain.ledgerConn).None?, LedgerFormatMessage(spec.blockchain.ledgerConn));
    var db := spec.database;
    errors' := AppendIf(errors', db.dbType !in [SqliteType, PsqlType], DbTypeMessage(db.dbType));
    var psql := db.dbType == PsqlType;
    errors' := AppendIf(errors', psql && !TruthyStr(db.user), PsqlUserRequired);
    errors' := AppendIf(errors', psql && !TruthyStr(db.password) && db.passwordSecretRef.None?,
                        PsqlPasswordRequired);
  }

  /** The enabled-feature checks. */
  method CheckFeatures(errors: seq<string>, spec: EdgeLakeOperatorSpec) returns (errors': seq<string>)
    ensures errors' == AddFeatures(errors, spec)
  {
    errors' := AppendIf(errors, spec.mqtt.enabled && !TruthyStr(spec.mqtt.broker), MqttBrokerRequired);
    errors' := AppendIf(errors', spec.opcua.enabled && !TruthyStr(spec.opcua.url), OpcuaUrlRequired);
    errors' := AppendIf(errors', spec.etherip.enabled && !TruthyStr(spec.etherip.url) && !spec.etherip.simulatorMode, EtheripUrlRequired);
  }

  /** The service-type check and the loop over the two NodePort-range pairs. */
  method CheckService(errors: seq<string>, n: NetworkingSpec) returns (errors': seq<string>)
    ensures errors' == AddService(errors, n)
  {
    errors' := AppendIf(errors, n.serviceType !in ValidServiceTypes, ServiceTypeMessage(n.serviceType));
    ghost var before := errors';
    var nodePort := n.serviceType == NodePortType;
    if nodePort {
      var pairs := [(ServerPortField, n.serverPort), (RestPortField, n.restPort)];
      var i := 0;
      while i < |pairs|
        invariant 0 <= i <= |pairs|
        invariant i == 0 ==> errors' == before
        invariant i == 1 ==> errors' == before + ErrorIf(!InNodePortRange(n.serverPort), NodePortMessage(ServerPortField, n.serverPort))
        invariant i == 2 ==> errors' == before + ErrorIf(!InNodePortRange(n.serverPort), NodePortMessage(ServerPortField, n.serverPort))
                                                + ErrorIf(!InNodePortRange(n.restPort), NodePortMessage(RestPortField, n.restPort))
      {
        var (portName, port) := pairs[i];
        errors' := AppendIf(errors', port < 30000 || port > 32767, NodePortMessage(portName, port));
        i := i + 1;
      }
    }
  }

  /**
   * `validate_spec`: all rule groups run in order and append to one list, so
   * the result is the messages of exactly the violated rules, in rule order;
   * it is empty exactly when every rule holds.
   */
  method ValidateSpec(spec: EdgeLakeOperatorSpec) returns (errors: seq<string>)
    ensures errors == ValidationErrors(spec)
    ensures errors == [] <==> Accepted(spec)
  {
    errors := [];
    errors := CheckRequired(errors, spec);
    errors := CheckPorts(errors, spec.networking);
    errors := CheckStorage(errors, spec);
    errors := CheckFeatures(errors, spec);
    errors := CheckService(errors, spec.networking);
    var partitioning := spec.operator.partitioning;
    errors := AppendIf(errors, partitioning.enabled && partitioning.keep < 1,
                       PartitionKeepMessage);
    ValidIffAccepted(spec);
  }
}
