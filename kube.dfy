/**
 * Value types standing for the orchestrator objects the deployment handler builds,
 * and for the inputs it reads (container ports, probes, storage references).
 */
module Kube {
  import opened Wrappers

  type Labels = map<string, string>

  /** A port the workload's container listens on. */
  datatype ContainerPort = ContainerPort(containerPort: int)

  /** An HTTP-get health probe: its delay, period, target path and target port. */
  datatype Probe = Probe(
    initialDelaySeconds: Option<int>,
    periodSeconds: Option<int>,
    path: Option<string>,
    port: int)

  /** An environment variable: a literal value, or one read from a key of a config map. */
  datatype EnvVar =
    | ValueEnv(name: Option<string>, value: Option<string>)
    | ConfigMapKeyEnv(name: Option<string>, key: Option<string>, configMapName: Option<string>)

  /** A secret or config map the workload mounts; a config map's mount path may be null. */
  datatype VolumeRef = VolumeRef(name: string, mountPath: Option<string>, readOnly: bool, defaultMode: int)

  /** A persistent volume claim the workload mounts. */
  datatype ClaimRef = ClaimRef(name: string, mountPath: Option<string>, readOnly: bool)

  datatype VolumeMount = VolumeMount(name: string, mountPath: Option<string>, readOnly: bool)

  datatype VolumeSource =
    | SecretSource(secretName: string, secretMode: Option<int>)
    | ConfigMapSource(configMapName: string, configMapMode: Option<int>)
    | ClaimSource(claimName: string)

  datatype Volume = Volume(name: string, source: VolumeSource)

  datatype LocalObjectReference = LocalObjectReference(name: string)

  datatype Container = Container(
    name: string,
    image: string,
    imagePullPolicy: string,
    ports: seq<ContainerPort>,
    env: seq<EnvVar>,
    volumeMounts: seq<VolumeMount>,
    livenessProbe: Option<Probe>,
    readinessProbe: Option<Probe>,
    requests: map<string, string>,
    limits: map<string, string>,
    preStopCommand: seq<string>)

  datatype ObjectMeta = ObjectMeta(name: string, labels: Labels, annotations: Labels, namespace: Option<string>)

  datatype PodTemplate = PodTemplate(
    labels: Labels,
    annotations: Labels,
    containers: seq<Container>,
    imagePullSecrets: seq<LocalObjectReference>,
    volumes: seq<Volume>,
    nodeSelector: Labels)

  datatype DeploymentSpec = DeploymentSpec(matchLabels: Labels, strategy: string, replicas: int, template: PodTemplate)

  datatype Deployment = Deployment(metadata: ObjectMeta, spec: DeploymentSpec)

  datatype ProbeKind = Liveness | Readiness

  /** Everything that aborts the generation of the deployment. */
  datatype Error =
    | MissingProbePort(kind: ProbeKind)  // no container port to default a probe port from
    | NoContainerPort                    // the first container port was asked for and there is none
    | IntOverflow(key: string)           // an overlay integer does not fit a Java int
    | WriteFailed(message: string)       // the manifest could not be written

  /** The lower-case name of a probe kind, as the messages spell it. */
  function KindName(kind: ProbeKind): string {
    match kind
    case Liveness => "liveness"
    case Readiness => "readiness"
  }

  const PORT_MESSAGE_PREFIX := "unable to detect port for "

  /** The message the plugin exception carries for a probe without a port to default to:
    * it names the probe kind right after the common prefix. */
  function MissingPortMessage(kind: ProbeKind): (m: string)
    ensures |PORT_MESSAGE_PREFIX| + |KindName(kind)| <= |m|
    ensures m[..|PORT_MESSAGE_PREFIX|] == PORT_MESSAGE_PREFIX
    ensures m[|PORT_MESSAGE_PREFIX|..|PORT_MESSAGE_PREFIX| + |KindName(kind)|] == KindName(kind)
  {
    var separator := if kind == Liveness then "probe." else "probe. ";
    var m := PORT_MESSAGE_PREFIX + KindName(kind) + " " + separator + "missing @kubernetes:Service annotation on listener.";
    assert m[..|PORT_MESSAGE_PREFIX|] == PORT_MESSAGE_PREFIX;
    assert m[|PORT_MESSAGE_PREFIX|..|PORT_MESSAGE_PREFIX| + |KindName(kind)|] == KindName(kind);
    m
  }
}
