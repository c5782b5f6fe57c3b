/** `BuildService` and `buildServicePorts` of the Go operator (service.go). */
module GoService {
  import opened Common
  import opened GoTypes
  import opened GoObjects
  import opened GoLabels

  const TcpServerPort := "tcp-server"
  const RestApiPort := "rest-api"
  const MqttBrokerPort := "mqtt-broker"
  const Tcp := "TCP"
  const NodePortType := "NodePort"
  const LoadBalancerType := "LoadBalancer"

  /** The service types under which every port is also exposed on the nodes. */
  predicate ExposesNodePorts(serviceType: string) {
    serviceType == NodePortType || serviceType == LoadBalancerType
  }

  /** A TCP port forwarding to the same container port, with `NodePort` equal to it when exposed and unset otherwise. */
  predicate IsServicePort(p: ServicePort, portName: string, number: int, exposed: bool) {
    p == ServicePort(portName, Tcp, number, number, if exposed then number else 0)
  }

  /** A port's `NodePort`: the port itself when exposed on the nodes, unset (zero) otherwise. */
  function NodePortFor(exposed: bool, port: int): int {
    if exposed then port else 0
  }

  /** The ports `buildServicePorts` returns. */
  function ServicePortsOf(cr: EdgeLakeOperator): seq<ServicePort>
    requires cr.spec.metadata.Some? && HasNetworking(cr)
  {
    var net, exposed := Networking(cr), ExposesNodePorts(cr.spec.metadata.value.serviceType);
    [ServicePort(TcpServerPort, Tcp, net.serverPort, net.serverPort, NodePortFor(exposed, net.serverPort)),
     ServicePort(RestApiPort, Tcp, net.restPort, net.restPort, NodePortFor(exposed, net.restPort))] +
    (if net.brokerPort > 0
     then [ServicePort(MqttBrokerPort, Tcp, net.brokerPort, net.brokerPort, NodePortFor(exposed, net.brokerPort))]
     else [])
  }

  /** The Service `BuildService` returns. */
  function ServiceOf(cr: EdgeLakeOperator): Object
    requires Labelled(cr) && HasNetworking(cr)
  {
    Service(ObjectMeta(cr.spec.metadata.value.serviceName, cr.namespace, Labels(cr), None),
      ServiceSpec(cr.spec.metadata.value.serviceType, SelectorLabels(cr), ServicePortsOf(cr), ""))
  }

  /**
   * `buildServicePorts`: tcp-server and rest-api, given `NodePort` in place
   * under NodePort or LoadBalancer, then mqtt-broker appended exactly when
   * the broker port is positive.
   */
  method BuildServicePorts(cr: EdgeLakeOperator) returns (ports: seq<ServicePort>)
    requires cr.spec.metadata.Some? && HasNetworking(cr)
    ensures var net, exposed := Networking(cr), ExposesNodePorts(cr.spec.metadata.value.serviceType);
      && |ports| == (if net.brokerPort > 0 then 3 else 2)
      && IsServicePort(ports[0], TcpServerPort, net.serverPort, exposed)
      && IsServicePort(ports[1], RestApiPort, net.restPort, exposed)
      && (|ports| == 3 ==> IsServicePort(ports[2], MqttBrokerPort, net.brokerPort, exposed))
    ensures ports == ServicePortsOf(cr)
    ensures forall p | p in ports :: p.targetPort == p.port && p.protocol == Tcp
    ensures forall p | p in ports ::
      p.nodePort == (if ExposesNodePorts(cr.spec.metadata.value.serviceType) then p.port else 0)
  {
    var net := Networking(cr);
    var serviceType := cr.spec.metadata.value.serviceType;
    ports := [
      ServicePort(TcpServerPort, Tcp, net.serverPort, net.serverPort, 0),
      ServicePort(RestApiPort, Tcp, net.restPort, net.restPort, 0)
    ];
    if serviceType == NodePortType || serviceType == LoadBalancerType {
      ports := ports[0 := ports[0].(nodePort := net.serverPort)];
      ports := ports[1 := ports[1].(nodePort := net.restPort)];
    }
    if net.brokerPort > 0 {
      var brokerPort := ServicePort(MqttBrokerPort, Tcp, net.brokerPort, net.brokerPort, 0);
      if serviceType == NodePortType || serviceType == LoadBalancerType {
        brokerPort := brokerPort.(nodePort := net.brokerPort);
      }
      ports := ports + [brokerPort];
    }
  }

  /**
   * `BuildService`: named `Metadata.ServiceName` with the standard labels,
   * of type `Metadata.ServiceType`, selecting the pods by the selector
   * labels; no cluster IP is requested.
   */
  method BuildService(cr: EdgeLakeOperator) returns (s: Object)
    requires Labelled(cr) && HasNetworking(cr)
    ensures s == ServiceOf(cr)
    ensures s.Service? && KindOf(s) == ServiceKind
    ensures s.meta == ObjectMeta(cr.spec.metadata.value.serviceName, cr.namespace, Labels(cr), None)
    ensures s.service.serviceType == cr.spec.metadata.value.serviceType
    ensures s.service.selector == SelectorLabels(cr) && s.service.clusterIP == ""
    ensures var net, exposed := Networking(cr), ExposesNodePorts(cr.spec.metadata.value.serviceType);
      && |s.service.ports| == (if net.brokerPort > 0 then 3 else 2)
      && IsServicePort(s.service.ports[0], TcpServerPort, net.serverPort, exposed)
      && IsServicePort(s.service.ports[1], RestApiPort, net.restPort, exposed)
      && (|s.service.ports| == 3 ==> IsServicePort(s.service.ports[2], MqttBrokerPort, net.brokerPort, exposed))
  {
    var ports := BuildServicePorts(cr);
    s := Service(ObjectMeta(cr.spec.metadata.value.serviceName, cr.namespace, Labels(cr), None),
      ServiceSpec(cr.spec.metadata.value.serviceType, SelectorLabels(cr), ports, ""));
  }
}
