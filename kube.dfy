/**
 * The Kubernetes and OpenShift API records read or written by the definitions, cut down to the
 * fields used there, and the KogitoApp custom resource they are derived from. Go pointers that may
 * be nil are `Option`s; a nil map is `None`, an allocated one `Some(m)`.
 */
module Kube {
  import opened Wrappers

  type StrMap = map<string, string>

  /** The entries of a possibly nil map (reading a nil map in Go yields nothing). */
  function MapOf(m: Option<StrMap>): StrMap {
    if m.Some? then m.value else map[]
  }

  /** metav1.ObjectMeta */
  datatype ObjectMeta = ObjectMeta(
    name: string,
    namespace: string,
    labels: Option<StrMap>,
    annotations: Option<StrMap>)

  /** A fresh ObjectMeta literal with only name and namespace set. */
  function NewMeta(name: string, namespace: string): ObjectMeta {
    ObjectMeta(name, namespace, None, None)
  }

  /** The kind recorded in an object's TypeMeta; `NoKind` until it is set. */
  datatype ResourceKind = NoKind | BuildConfigKind | DeploymentConfigKind | ServiceKind | RouteKind

  // ---- the KogitoApp custom resource (v1alpha1) ----

  datatype EnvVar = EnvVar(name: string, value: string)

  /** Compute resources, copied as they are into the container. */
  datatype ResourceRequirements = ResourceRequirements(limits: StrMap, requests: StrMap)

  datatype RuntimeType = Quarkus | Springboot | OtherRuntime(runtime: string)

  /** v1alpha1.Image: an image stream reference triple. */
  datatype Image = Image(imageStreamName: string, imageStreamNamespace: string, imageStreamTag: string)

  datatype GitSource = GitSource(uri: string, reference: string, contextDir: string)

  datatype BuildObject = BuildObject(gitSource: GitSource, env: seq<EnvVar>, incremental: bool)

  datatype KogitoAppSpec = KogitoAppSpec(
    name: string,
    runtime: RuntimeType,
    build: BuildObject,
    env: seq<EnvVar>,
    resources: ResourceRequirements,
    replicas: Option<int>)

  /** The custom resource: its own object name and namespace, and its spec. */
  datatype KogitoApp = KogitoApp(name: string, namespace: string, spec: KogitoAppSpec)

  // ---- builds (buildv1) ----

  /** corev1.ObjectReference */
  datatype ObjectReference = ObjectReference(kind: string, name: string, namespace: string)

  datatype GitBuildSource = GitBuildSource(uri: string, ref: string)

  datatype ImageSourcePath = ImageSourcePath(sourcePath: string, destinationDir: string)

  datatype ImageSource = ImageSource(from: ObjectReference, paths: seq<ImageSourcePath>)

  datatype BuildSourceType = SourceTypeUnset | SourceTypeGit | SourceTypeImage

  datatype BuildSource = BuildSource(
    sourceType: BuildSourceType,
    contextDir: string,
    git: Option<GitBuildSource>,
    images: seq<ImageSource>)

  datatype SourceBuildStrategy = SourceBuildStrategy(
    from: ObjectReference,
    env: seq<EnvVar>,
    incremental: Option<bool>)

  datatype BuildStrategyType = StrategyTypeUnset | SourceBuildStrategyType

  datatype BuildStrategy = BuildStrategy(
    strategyType: BuildStrategyType,
    sourceStrategy: Option<SourceBuildStrategy>)

  /** A build trigger of type ImageChange; `from` is a pointer in Go. */
  datatype BuildTriggerPolicy = ImageChangeBuildTrigger(from: Option<ObjectReference>)

  datatype BuildConfig = BuildConfig(
    kind: ResourceKind,
    meta: ObjectMeta,
    source: BuildSource,
    strategy: BuildStrategy,
    outputTo: Option<ObjectReference>,
    triggers: seq<BuildTriggerPolicy>)

  /** A BuildConfig literal with only name and namespace set. */
  function EmptyBuildConfig(name: string, namespace: string): BuildConfig {
    BuildConfig(
      NoKind, NewMeta(name, namespace),
      BuildSource(SourceTypeUnset, "", None, []),
      BuildStrategy(StrategyTypeUnset, None),
      None, [])
  }

  // ---- deployments (appsv1, corev1) ----

  datatype Protocol = ProtocolTCP | ProtocolUDP | ProtocolSCTP

  datatype ContainerPort = ContainerPort(name: string, containerPort: int, protocol: Protocol)

  /** intstr.IntOrString */
  datatype IntOrString = IntValue(intValue: int) | StringValue(stringValue: string)

  /** corev1.Probe with a TCP socket handler (the only handler used here). */
  datatype Probe = Probe(
    timeoutSeconds: int,
    periodSeconds: int,
    successThreshold: int,
    failureThreshold: int,
    tcpSocketPort: Option<IntOrString>)

  datatype PullPolicy = PullPolicyUnset | PullAlways | PullIfNotPresent | PullNever

  datatype Container = Container(
    name: string,
    env: seq<EnvVar>,
    resources: ResourceRequirements,
    image: string,
    imagePullPolicy: PullPolicy,
    ports: seq<ContainerPort>,
    livenessProbe: Option<Probe>,
    readinessProbe: Option<Probe>)

  datatype PodSpec = PodSpec(containers: seq<Container>, serviceAccountName: string)

  datatype PodTemplateSpec = PodTemplateSpec(meta: ObjectMeta, spec: PodSpec)

  datatype DeploymentStrategyType = StrategyRolling | StrategyRecreate | StrategyCustom

  datatype DeploymentTriggerPolicy =
    | ConfigChangeTrigger
    | ImageChangeTrigger(automatic: bool, containerNames: seq<string>, from: ObjectReference)

  datatype DeploymentConfig = DeploymentConfig(
    kind: ResourceKind,
    meta: ObjectMeta,
    strategy: DeploymentStrategyType,
    template: PodTemplateSpec,
    selector: Option<StrMap>,
    triggers: seq<DeploymentTriggerPolicy>,
    replicas: int)

  // ---- network exposure ----

  datatype ServiceType = ClusterIP | NodePort | LoadBalancer | ExternalName

  datatype ServicePort = ServicePort(name: string, protocol: Protocol, port: int, targetPort: IntOrString)

  datatype Service = Service(
    kind: ResourceKind,
    meta: ObjectMeta,
    selector: Option<StrMap>,
    serviceType: ServiceType,
    ports: seq<ServicePort>)

  datatype RouteTargetReference = RouteTargetReference(kind: ResourceKind, name: string)

  datatype Route = Route(kind: ResourceKind, meta: ObjectMeta, targetPort: IntOrString, to: RouteTargetReference)

  // ---- identity ----

  datatype ServiceAccount = ServiceAccount(meta: ObjectMeta)

  datatype RoleRef = RoleRef(kind: string, name: string)

  datatype Subject = Subject(kind: string, namespace: string, name: string)

  datatype RoleBinding = RoleBinding(meta: ObjectMeta, roleRef: RoleRef, subjects: seq<Subject>)

  // ---- image metadata (dockerv10) ----

  datatype DockerConfig = DockerConfig(labels: Option<StrMap>)

  datatype DockerImage = DockerImage(config: Option<DockerConfig>)

  // ---- errors ----

  /** The errors the builders return. */
  datatype Error =
    | MissingS2IBuild
    | MissingRunnerBuild
    | MissingServiceAccount
    | NoServicePorts(deploymentName: string)
    | MissingService(appName: string)
  {
    function Message(): string {
      match this
      case MissingS2IBuild => MissingS2IBuildMessage
      case MissingRunnerBuild => MissingRunnerBuildMessage
      case MissingServiceAccount => MissingServiceAccountMessage
      case NoServicePorts(name) =>
        NoServicePortsPrefix + name + NoServicePortsSuffix
      case MissingService(name) =>
        MissingServicePrefix + name
    }
  }

  /** The error texts, written in pieces so that the verifier can read their characters. */
  const CreateHead := "Impossible to create "
  const MissingS2IBuildMessage := CreateHead + "a " + "runner " + "build configuration without a s2i build definition"
  const MissingRunnerBuildMessage :=
    CreateHead + "the " + "DeploymentConfig without a reference to a the service BuildConfig"
  const MissingServiceAccountMessage :=
    CreateHead + "the " + "DeploymentConfig without a reference to a the Kogito ServiceAccount"
  const NoServicePortsPrefix := "The " + "deploymentConfig spec '"
  const NoServicePortsSuffix := "' doesn't have any ports exposed. Impossible to create ServicePorts"
  const MissingServicePrefix := CreateHead + "a " + "Route " + "without a service on Kogito app "

  /** The characters that tell the messages apart: the first, the 22nd and the 24th. */
  lemma MessageMarks(e: Error)
    ensures |e.Message()| > 23
    ensures e.NoServicePorts? <==> e.Message()[0] == 'T'
    ensures !e.NoServicePorts? ==> (e.MissingService? || e.MissingS2IBuild? <==> e.Message()[21] == 'a')
    ensures !e.NoServicePorts? ==> (e.MissingService? <==> e.Message()[21] == 'a' && e.Message()[23] == 'R')
  {
    match e
    case NoServicePorts(n) =>
      assert e.Message()[0] == NoServicePortsPrefix[0];
    case MissingService(n) =>
      assert e.Message()[..|MissingServicePrefix|] == MissingServicePrefix;
    case _ =>
  }

  /** Every error has its own text: two errors with the same message are the same error. */
  lemma MessagesDistinct(e1: Error, e2: Error)
    requires e1.Message() == e2.Message()
    ensures e1 == e2
  {
    var m := e1.Message();
    MessageMarks(e1);
    MessageMarks(e2);
    if e1.NoServicePorts? {
      var p := |NoServicePortsPrefix|;
      assert m[p..p + |e1.deploymentName|] == e1.deploymentName;
      assert m[p..p + |e2.deploymentName|] == e2.deploymentName;
    } else if e1.MissingService? {
      assert m[|MissingServicePrefix|..] == e1.appName;
      assert m[|MissingServicePrefix|..] == e2.appName;
    } else {
      assert |e1.Message()| == |e2.Message()|;
    }
  }
}
