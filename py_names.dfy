/**
 * The names of the objects the Python operator manages, derived from the
 * custom resource's name, and the service endpoints it reports in status.
 */
module PyNames {
  import opened Common
  import opened PySpec
  import opened PyStatus

  /** `_generate_resource_names`, one field per dictionary key. */
  datatype ResourceNames = ResourceNames(
    deployment: string, service: string, configmap: string, secret: string,
    pvcAnylog: string, pvcBlockchain: string, pvcData: string, pvcScripts: string)

  /** The eight names in the dictionary's order. */
  function AllNames(r: ResourceNames): (s: seq<string>)
    ensures |s| == 8
  {
    [r.deployment, r.service, r.configmap, r.secret, r.pvcAnylog, r.pvcBlockchain, r.pvcData, r.pvcScripts]
  }

  const DeploymentSuffix := "-deployment"
  const ServiceSuffix := "-service"
  const ConfigSuffix := "-config"
  const SecretsSuffix := "-secrets"
  const AnylogPvcSuffix := "-anylog-pvc"
  const BlockchainPvcSuffix := "-blockchain-pvc"
  const DataPvcSuffix := "-data-pvc"
  const ScriptsPvcSuffix := "-scripts-pvc"

  /** The fixed suffix of each name, in the same order. */
  const Suffixes: seq<string> :=
    [DeploymentSuffix, ServiceSuffix, ConfigSuffix, SecretsSuffix,
     AnylogPvcSuffix, BlockchainPvcSuffix, DataPvcSuffix, ScriptsPvcSuffix]

  /** Every name is the resource name followed by its own suffix. */
  function GenerateResourceNames(name: string): (r: ResourceNames)
    ensures forall i | 0 <= i < 8 :: AllNames(r)[i] == name + Suffixes[i]
  {
    ResourceNames(name + DeploymentSuffix, name + ServiceSuffix, name + ConfigSuffix, name + SecretsSuffix,
      name + AnylogPvcSuffix, name + BlockchainPvcSuffix, name + DataPvcSuffix, name + ScriptsPvcSuffix)
  }

  lemma SuffixesDistinct()
    ensures forall i, j | 0 <= i < j < 8 :: Suffixes[i] != Suffixes[j]
  {
    // Suffixes of equal length differ at a known position.
    assert Suffixes[0][1] != Suffixes[4][1];
    assert Suffixes[1][3] != Suffixes[3][3];
  }

  /** A common prefix does not make different suffixes equal. */
  lemma PrefixCancels(name: string, s: string, t: string)
    requires name + s == name + t
    ensures s == t
  {
    assert s == (name + s)[|name|..];
    assert t == (name + t)[|name|..];
  }

  /** For every resource name the eight derived names are pairwise distinct. */
  lemma ResourceNamesDistinct(name: string)
    ensures forall i, j | 0 <= i < j < 8 ::
      AllNames(GenerateResourceNames(name))[i] != AllNames(GenerateResourceNames(name))[j]
  {
    var names := AllNames(GenerateResourceNames(name));
    SuffixesDistinct();
    forall i, j | 0 <= i < j < 8
      ensures names[i] != names[j]
    {
      if names[i] == names[j] {
        PrefixCancels(name, Suffixes[i], Suffixes[j]);
      }
    }
  }

  /** The cluster DNS name of the Service. */
  function ServiceHost(names: ResourceNames, namespace: string): string {
    names.service + "." + namespace + ".svc.cluster.local"
  }

  /** `host:port` with the port in decimal. */
  function HostPort(host: string, port: int): string {
    host + ":" + IntStr(port)
  }

  /** The port of a `host:port` string is recovered from the text after the host and the colon. */
  lemma HostPortRoundTrip(host: string, port: int)
    ensures |HostPort(host, port)| > |host| + 1
    ensures HostPort(host, port)[..|host|] == host && HostPort(host, port)[|host|] == ':'
    ensures ParseInt(HostPort(host, port)[|host| + 1..]) == port
  {
    assert HostPort(host, port)[|host| + 1..] == IntStr(port);
    IntStrRoundTrip(port);
  }

  /** `_build_endpoints`: tcp and rest always, broker exactly when the broker port is truthy. */
  function BuildEndpoints(spec: EdgeLakeOperatorSpec, namespace: string, names: ResourceNames): (e: Endpoints)
    ensures e.tcp == Some(HostPort(ServiceHost(names, namespace), spec.networking.serverPort))
    ensures e.rest == Some(HostPort(ServiceHost(names, namespace), spec.networking.restPort))
    ensures e.broker.None? <==> !TruthyInt(spec.networking.brokerPort)
    ensures e.broker.Some? ==> e.broker.value == HostPort(ServiceHost(names, namespace), spec.networking.brokerPort.value)
  {
    var host := ServiceHost(names, namespace);
    Endpoints(
      Some(HostPort(host, spec.networking.serverPort)),
      Some(HostPort(host, spec.networking.restPort)),
      if TruthyInt(spec.networking.brokerPort) then Some(HostPort(host, spec.networking.brokerPort.value)) else None)
  }
}
