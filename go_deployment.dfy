/**
 * `BuildDeployment` and its helpers in the Go operator (deployment.go):
 * one replica of one container that reads the ConfigMap as environment,
 * listens on the node's ports, mounts four volumes and is probed on the
 * REST port.
 */
module GoDeployment {
  import opened Common
  import opened GoTypes
  import opened GoObjects
  import opened GoLabels
  import opened GoService
  import opened GoPvc

  const DeploymentSuffix := "-deployment"
  const ContainerSuffix := "-container"

  const AnylogVolume := "anylog-volume"
  const BlockchainVolume := "blockchain-volume"
  const DataVolume := "data-volume"
  const ScriptsVolume := "scripts-volume"

  const AnylogMountPath := "/app/EdgeLake/anylog"
  const BlockchainMountPath := "/app/EdgeLake/blockchain"
  const DataMountPath := "/app/EdgeLake/data"
  const ScriptsMountPath := "/app/deployment-scripts"

  /** The liveness probe waits a minute, then checks every 30 seconds. */
  function LivenessProbe(restPort: int): Probe {
    Probe(restPort, 60, 30, 5, 3)
  }

  /** The readiness probe waits 30 seconds, then checks every 10 seconds. */
  function ReadinessProbe(restPort: int): Probe {
    Probe(restPort, 30, 10, 5, 3)
  }

  /** `buildVolumeMounts`: the four fixed mounts, whatever the resource says. */
  function VolumeMounts(): (mounts: seq<VolumeMount>)
    ensures |mounts| == 4
    ensures mounts[0] == VolumeMount("anylog-volume", "/app/EdgeLake/anylog")
    ensures mounts[1] == VolumeMount("blockchain-volume", "/app/EdgeLake/blockchain")
    ensures mounts[2] == VolumeMount("data-volume", "/app/EdgeLake/data")
    ensures mounts[3] == VolumeMount("scripts-volume", "/app/deployment-scripts")
  {
    [VolumeMount(AnylogVolume, AnylogMountPath), VolumeMount(BlockchainVolume, BlockchainMountPath),
     VolumeMount(DataVolume, DataMountPath), VolumeMount(ScriptsVolume, ScriptsMountPath)]
  }

  /** What `buildVolumes` dereferences: `Spec.Metadata`, and only when persistence is enabled. */
  predicate VolumesBuildable(cr: EdgeLakeOperator) {
    PersistenceEnabled(cr) ==> cr.spec.metadata.Some?
  }

  /**
   * `buildVolumes`: one volume per mount, in the mounts' order; each is
   * backed by the claim `BuildPVCs` makes for it when persistence is
   * enabled, and by an emptyDir otherwise.
   */
  function Volumes(cr: EdgeLakeOperator): (vs: seq<Volume>)
    requires VolumesBuildable(cr)
    ensures |vs| == 4 && forall i | 0 <= i < 4 :: vs[i].name == VolumeMounts()[i].name
    ensures forall i | 0 <= i < 4 ::
      vs[i].source == if PersistenceEnabled(cr) then ClaimVolume(ClaimNames(cr.spec.metadata.value.appName)[i]) else EmptyDirVolume
  {
    if cr.spec.persistence.Some? && cr.spec.persistence.value.enabled then
      var appName := cr.spec.metadata.value.appName;
      [Volume(AnylogVolume, ClaimVolume(appName + AnylogClaimSuffix)),
       Volume(BlockchainVolume, ClaimVolume(appName + BlockchainClaimSuffix)),
       Volume(DataVolume, ClaimVolume(appName + DataClaimSuffix)),
       Volume(ScriptsVolume, ClaimVolume(appName + ScriptsClaimSuffix))]
    else
      [Volume(AnylogVolume, EmptyDirVolume), Volume(BlockchainVolume, EmptyDirVolume),
       Volume(DataVolume, EmptyDirVolume), Volume(ScriptsVolume, EmptyDirVolume)]
  }

  /** The volume names are pairwise distinct, so each mount, naming the volume at its own index, names no other. */
  lemma VolumeNamesDistinct(cr: EdgeLakeOperator)
    requires VolumesBuildable(cr)
    ensures forall i, j | 0 <= i < j < 4 :: Volumes(cr)[i].name != Volumes(cr)[j].name
  {
    var vs := Volumes(cr);
    assert vs[0].name == AnylogVolume && vs[1].name == BlockchainVolume;
    assert vs[2].name == DataVolume && vs[3].name == ScriptsVolume;
    assert |AnylogVolume| == 13 && |BlockchainVolume| == 17 && |DataVolume| == 11 && |ScriptsVolume| == 14;
  }

  /** A TCP container port. */
  predicate IsContainerPort(p: ContainerPort, portName: string, number: int) {
    p == ContainerPort(portName, number, Tcp)
  }

  /** The ports `buildContainerPorts` returns. */
  function ContainerPortsOf(cr: EdgeLakeOperator): seq<ContainerPort>
    requires HasNetworking(cr)
  {
    var net := Networking(cr);
    [ContainerPort(TcpServerPort, net.serverPort, Tcp), ContainerPort(RestApiPort, net.restPort, Tcp)] +
    (if net.brokerPort > 0 then [ContainerPort(MqttBrokerPort, net.brokerPort, Tcp)] else [])
  }

  /** `buildContainerPorts`: tcp-server and rest-api, then mqtt-broker appended exactly when the broker port is positive. */
  method BuildContainerPorts(cr: EdgeLakeOperator) returns (ports: seq<ContainerPort>)
    requires HasNetworking(cr)
    ensures ports == ContainerPortsOf(cr)
    ensures var net := Networking(cr);
      && |ports| == (if net.brokerPort > 0 then 3 else 2)
      && IsContainerPort(ports[0], TcpServerPort, net.serverPort)
      && IsContainerPort(ports[1], RestApiPort, net.restPort)
      && (|ports| == 3 ==> IsContainerPort(ports[2], MqttBrokerPort, net.brokerPort))
  {
    var net := Networking(cr);
    ports := [ContainerPort(TcpServerPort, net.serverPort, Tcp), ContainerPort(RestApiPort, net.restPort, Tcp)];
    if net.brokerPort > 0 {
      ports := ports + [ContainerPort(MqttBrokerPort, net.brokerPort, Tcp)];
    }
  }

  /** What the container and pod builders dereference: image, metadata and networking. */
  predicate DeploymentBuildable(cr: EdgeLakeOperator) {
    Labelled(cr) && HasNetworking(cr)
  }

  /** The container `buildContainer` returns. */
  function ContainerOf(cr: EdgeLakeOperator): Container
    requires DeploymentBuildable(cr)
  {
    var md, img, net := cr.spec.metadata.value, cr.spec.image.value, Networking(cr);
    Container(md.hostname + ContainerSuffix, img.repository + ":" + img.tag, img.pullPolicy, ContainerPortsOf(cr),
      [md.configMapName], true, true, VolumeMounts(), LivenessProbe(net.restPort), ReadinessProbe(net.restPort),
      cr.spec.resources)
  }

  /** The pod spec `buildPodSpec` returns. */
  function PodSpecOf(cr: EdgeLakeOperator): PodSpec
    requires DeploymentBuildable(cr)
  {
    var md, img := cr.spec.metadata.value, cr.spec.image.value;
    PodSpec([ContainerOf(cr)], Volumes(cr),
      if |md.nodeSelector| > 0 then Some(md.nodeSelector) else None,
      if img.secretName != "" then Some([img.secretName]) else None)
  }

  /** The Deployment `BuildDeployment` returns. */
  function DeploymentOf(cr: EdgeLakeOperator): Object
    requires DeploymentBuildable(cr)
  {
    Deployment(ObjectMeta(cr.spec.metadata.value.appName + DeploymentSuffix, cr.namespace, Labels(cr), None),
      DeploymentSpec(1, SelectorLabels(cr), PodTemplate(SelectorLabels(cr), None, PodSpecOf(cr))))
  }

  /**
   * `buildContainer`: named after the host, running `repository:tag`, with
   * the ConfigMap as its environment, a terminal, the four mounts, both
   * probes on the REST port, and the resource's requirements when given.
   */
  method BuildContainer(cr: EdgeLakeOperator) returns (c: Container)
    requires DeploymentBuildable(cr)
    ensures c == ContainerOf(cr)
    ensures var md, img, net := cr.spec.metadata.value, cr.spec.image.value, Networking(cr);
      && c.name == md.hostname + "-container"
      && c.image == img.repository + ":" + img.tag
      && c.imagePullPolicy == img.pullPolicy
      && c.envFrom == [md.configMapName]
      && c.tty && c.stdin
      && c.volumeMounts == VolumeMounts()
      && c.livenessProbe == Probe(net.restPort, 60, 30, 5, 3)
      && c.readinessProbe == Probe(net.restPort, 30, 10, 5, 3)
      && c.resources == cr.spec.resources
    ensures var net := Networking(cr);
      && |c.ports| == (if net.brokerPort > 0 then 3 else 2)
      && IsContainerPort(c.ports[0], TcpServerPort, net.serverPort)
      && IsContainerPort(c.ports[1], RestApiPort, net.restPort)
      && (|c.ports| == 3 ==> IsContainerPort(c.ports[2], MqttBrokerPort, net.brokerPort))
  {
    var md, img, net := cr.spec.metadata.value, cr.spec.image.value, Networking(cr);
    var image := img.repository + ":" + img.tag;
    var ports := BuildContainerPorts(cr);
    c := Container(md.hostname + ContainerSuffix, image, img.pullPolicy, ports, [md.configMapName], true, true,
      VolumeMounts(), LivenessProbe(net.restPort), ReadinessProbe(net.restPort), None);
    if cr.spec.resources.Some? {
      c := c.(resources := cr.spec.resources);
    }
  }

  /**
   * `buildPodSpec`: the one container and the volumes; the node selector
   * only when non-empty, the pull secret only when a secret name is set.
   */
  method BuildPodSpec(cr: EdgeLakeOperator) returns (pod: PodSpec)
    requires DeploymentBuildable(cr)
    ensures pod == PodSpecOf(cr)
    ensures |pod.containers| == 1 && pod.volumes == Volumes(cr)
    ensures var md := cr.spec.metadata.value;
      && (pod.nodeSelector.Some? <==> |md.nodeSelector| > 0)
      && (pod.nodeSelector.Some? ==> pod.nodeSelector.value == md.nodeSelector)
    ensures var secret := cr.spec.image.value.secretName;
      pod.imagePullSecrets == if secret != "" then Some([secret]) else None
    ensures var c, md, img := pod.containers[0], cr.spec.metadata.value, cr.spec.image.value;
      && c.name == md.hostname + "-container" && c.image == img.repository + ":" + img.tag
      && c.envFrom == [md.configMapName] && c.volumeMounts == VolumeMounts()
      && c.livenessProbe == LivenessProbe(Networking(cr).restPort)
      && c.readinessProbe == ReadinessProbe(Networking(cr).restPort)
      && c.resources == cr.spec.resources
  {
    var container := BuildContainer(cr);
    pod := PodSpec([container], Volumes(cr), None, None);
    if cr.spec.metadata.Some? && |cr.spec.metadata.value.nodeSelector| > 0 {
      pod := pod.(nodeSelector := Some(cr.spec.metadata.value.nodeSelector));
    }
    if cr.spec.image.Some? && cr.spec.image.value.secretName != "" {
      pod := pod.(imagePullSecrets := Some([cr.spec.image.value.secretName]));
    }
  }

  /**
   * `BuildDeployment`: `<AppName>-deployment` with the standard labels, one
   * replica, selecting and labelling its pods with the selector labels and
   * no annotations, so the Service's selector picks its pods.
   */
  method BuildDeployment(cr: EdgeLakeOperator) returns (d: Object)
    requires DeploymentBuildable(cr)
    ensures d == DeploymentOf(cr)
    ensures d.Deployment? && KindOf(d) == DeploymentKind
    ensures d.meta == ObjectMeta(cr.spec.metadata.value.appName + "-deployment", cr.namespace, Labels(cr), None)
    ensures d.deployment.replicas == 1
    ensures d.deployment.matchLabels == SelectorLabels(cr) && d.deployment.template.labels == SelectorLabels(cr)
    ensures d.deployment.template.annotations.None?
    ensures var pod := d.deployment.template.pod;
      |pod.containers| == 1 && pod.containers[0].envFrom == [cr.spec.metadata.value.configMapName]
      && pod.volumes == Volumes(cr)
  {
    var pod := BuildPodSpec(cr);
    d := Deployment(ObjectMeta(cr.spec.metadata.value.appName + DeploymentSuffix, cr.namespace, Labels(cr), None),
      DeploymentSpec(1, SelectorLabels(cr), PodTemplate(SelectorLabels(cr), None, pod)));
  }
}
