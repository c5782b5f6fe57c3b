/**
 * `build_service` of the Python operator: the Service exposing the node's
 * TCP, REST and (when configured) MQTT broker ports.
 */
module PyService {
  import opened Common
  import opened PySpec
  import opened PyManifest
  import opened PyNames

  /** The port list the Service must end up with, named and ordered as built. */
  predicate IsPortOf(p: ServicePort, portName: string, number: int, serviceType: string) {
    && p.name == portName && p.port == number && p.targetPort == number && p.protocol == "TCP"
    && (p.nodePort.Some? <==> serviceType == "NodePort")
    && (p.nodePort.Some? ==> p.nodePort.value == number)
  }

  /** A port named `portName` exposing `number`, with the node port set to it under NodePort. */
  function PortOf(portName: string, number: int, serviceType: string): (p: ServicePort)
    ensures IsPortOf(p, portName, number, serviceType)
  {
    ServicePort(portName, number, number, "TCP", if serviceType == "NodePort" then Some(number) else None)
  }

  /**
   * The Service `build_service` returns, as one value: the two fixed ports
   * followed by the broker port when it is truthy.
   */
  function ServiceOf(name: string, namespace: string, spec: EdgeLakeOperatorSpec, names: ResourceNames): Manifest {
    var net := spec.networking;
    Service(ObjectMeta(names.service, namespace, Labels(name), None, false),
      ServiceSpec(net.serviceType, SelectorLabels(name),
        [PortOf("tcp-server", net.serverPort, net.serviceType), PortOf("rest-api", net.restPort, net.serviceType)]
        + (if TruthyInt(net.brokerPort) then [PortOf("mqtt-broker", net.brokerPort.value, net.serviceType)] else []),
        None))
  }

  /**
   * `build_service`: the port list starts as tcp-server and rest-api,
   * receives `nodePort` in place under NodePort, and gets mqtt-broker
   * appended exactly when the broker port is truthy.
   */
  method BuildService(name: string, namespace: string, spec: EdgeLakeOperatorSpec, names: ResourceNames)
    returns (m: Manifest)
    ensures m == ServiceOf(name, namespace, spec, names)
    ensures m.Service? && KindOf(m) == Some(ServiceKind)
    ensures m.meta == ObjectMeta(names.service, namespace, Labels(name), None, false)
    ensures m.service.serviceType == spec.networking.serviceType
    ensures m.service.selector == SelectorLabels(name) && m.service.clusterIP.None?
    ensures |m.service.ports| == (if TruthyInt(spec.networking.brokerPort) then 3 else 2)
    ensures IsPortOf(m.service.ports[0], "tcp-server", spec.networking.serverPort, spec.networking.serviceType)
    ensures IsPortOf(m.service.ports[1], "rest-api", spec.networking.restPort, spec.networking.serviceType)
    ensures |m.service.ports| == 3 ==>
      IsPortOf(m.service.ports[2], "mqtt-broker", spec.networking.brokerPort.value, spec.networking.serviceType)
    ensures forall p | p in m.service.ports :: p.targetPort == p.port && p.protocol == "TCP"
    ensures forall p | p in m.service.ports :: p.nodePort.Some? <==> spec.networking.serviceType == "NodePort"
    ensures forall p | p in m.service.ports :: p.nodePort.Some? ==> p.nodePort.value == p.port
  {
    var net := spec.networking;
    var ports := [
      ServicePort("tcp-server", net.serverPort, net.serverPort, "TCP", None),
      ServicePort("rest-api", net.restPort, net.restPort, "TCP", None)
    ];
    if net.serviceType == "NodePort" {
      ports := ports[0 := ports[0].(nodePort := Some(net.serverPort))];
      ports := ports[1 := ports[1].(nodePort := Some(net.restPort))];
    }
    if TruthyInt(net.brokerPort) {
      var broker := ServicePort("mqtt-broker", net.brokerPort.value, net.brokerPort.value, "TCP", None);
      if net.serviceType == "NodePort" {
        broker := broker.(nodePort := Some(net.brokerPort.value));
      }
      ports := ports + [broker];
    }
    m := Service(ObjectMeta(names.service, namespace, Labels(name), None, false),
      ServiceSpec(net.serviceType, SelectorLabels(name), ports, None));
  }
}
