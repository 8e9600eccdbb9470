# Kogito operator resource definitions, modelled in Dafny

This project models the part of the Kogito operator that turns a `KogitoApp` custom resource into
the OpenShift objects that run it (`pkg/controller/kogitoapp/definitions`):

- the two chained build configurations: an S2I build from Git, then a runner build that copies the
  S2I output into a runtime image;
- the `kogito-service` service account and its `view` role binding;
- the deployment configuration. Its ports and probes are discovered from the runner image's
  `io.openshift.expose-services` label. Its `org.kie/...` labels are promoted onto the deployment
  configuration, its selector and its pod template;
- the service that forwards the container ports, and the route to that service;
- the default metadata stamp that every one of these objects receives: the common annotations and
  the `app` label.

Kubernetes and OpenShift objects are Dafny datatypes, as values (`kube.dfy`). A Go helper that
mutates an object through a pointer becomes a method that takes the old value and returns the new
one. Where Go loops, the model loops, with loop invariants:

- over the common annotations;
- over the image labels (Go map order is an arbitrary choice `:|`);
- over the exposed service entries;
- over the container ports.

Each builder method is proved against a declarative description of its result, such as
`IsInnerBuild`, `IsS2IBuild`, `IsRunnerBuild`, `IsDeploymentFor` or `Composition.ResourcesFor`.
Lemmas then state what the operator promises about those descriptions.

Modules:

- `wrappers.dfy`: `Option` and `Result`.
- `go_strings.dfy`: Go's `strings.Split`, `strings.Contains` and an unsigned `strconv.Atoi`.
- `kube.dfy`: the object model and the error values.
- `meta.dfy`: `meta.go`.
- `build_config.dfy`, `build_config_s2i.dfy`, `build_config_runner.dfy`: the three build-config files.
- `service_account.dfy`, `role_binding.dfy`, `deployment_config.dfy`, `service.dfy`, `route.dfy`:
  one module per source file.
- `composition.dfy`: the objects built in the order service_test.go:42-50 builds them.
- `scenario.dfy`: the concrete service test.

## Model

| member | source | states |
|---|---|---|
| Meta.StampMeta | pkg/controller/kogitoapp/definitions/meta.go:8-30 | After the stamp, both maps are allocated and every common annotation has its fixed value. Other annotations are kept. The `app` label holds the application name and the other labels are kept. The name and namespace are unchanged. |
| Meta.AddDefaultMeta | pkg/controller/kogitoapp/definitions/meta.go:17-30 | A nil metadata is left nil. Allocating the maps, writing the annotations one by one and setting the label yields exactly the stamp. |
| Meta.StampIdempotent | pkg/controller/kogitoapp/definitions/meta.go:17-30 | Stamping twice with the same name equals stamping once. |
| Meta.StampOverridesAppLabel | pkg/controller/kogitoapp/definitions/meta.go:28 | A second stamp with another name gives what a single stamp with that name gives, so only the last `app` label counts. |
| Meta.AddDefaultLabels | pkg/controller/kogitoapp/definitions/deployment_config.go:87 | The selector is allocated and holds `app` = application name. Every other entry is kept and nothing else is added. |
| BuildConfigs.LookupImage | pkg/controller/kogitoapp/definitions/build_config.go:33-58 | The table has an image exactly for the Quarkus and Spring Boot runtimes; any other runtime gets the zero image. A found image has the shared namespace and tag. |
| BuildConfigs.ImageStreamNames | pkg/controller/kogitoapp/definitions/build_config.go:33-58 | Gives the four image-stream names, one per build type and runtime. |
| BuildConfigs.InnerNew | pkg/controller/kogitoapp/definitions/build_config.go:96-118 | Fails exactly for a runner build without an S2I build, with that error. Otherwise the result is the described inner build: name with suffix, namespace, output tag, source, strategy, triggers and stamped metadata. |
| BuildConfigs.SetBuildSource | pkg/controller/kogitoapp/definitions/build_config.go:120-148 | An S2I build gets the Git URI, reference and context directory, and outputs `<own name>:latest`. A runner build gets an image source that copies the S2I output, and outputs `<app name>:latest`. Nothing else changes. |
| BuildConfigs.SetBuildStrategy | pkg/controller/kogitoapp/definitions/build_config.go:150-164 | The strategy becomes a source strategy from the image-stream tag. The environment and the incremental flag are set only for S2I builds. |
| BuildConfigs.SeTriggers | pkg/controller/kogitoapp/definitions/build_config.go:166-175 | An S2I build is unchanged. A runner build gets exactly one image-change trigger, on the S2I output. |
| BuildConfigs.New | pkg/controller/kogitoapp/definitions/build_config.go:78-94 | Always succeeds. The S2I build is `<name>-builder` and outputs `<name>-builder:latest`. The runner build is `<name>` and outputs `<name>:latest`. The runner copies from and is triggered by the S2I output. |
| BuildConfigS2I.New | pkg/controller/kogitoapp/definitions/build_config_s2i.go:21-35 | The result is the S2I build: name, namespace, Git source, output, strategy and stamped metadata. |
| BuildConfigS2I.SetBuildSource | pkg/controller/kogitoapp/definitions/build_config_s2i.go:37-43 | The source becomes the app's Git URI, reference and context directory. Nothing else changes. |
| BuildConfigS2I.SetBuildStrategy | pkg/controller/kogitoapp/definitions/build_config_s2i.go:45-56 | The strategy comes from the builder image, with the app's environment and incremental flag. |
| BuildConfigS2I.AgreesWithChainStage | pkg/controller/kogitoapp/definitions/build_config_s2i.go:21-35 | The stand-alone S2I builder equals the S2I stage of the chained builder exactly when the resource name equals the spec name. The two builders stamp with different names. |
| BuildConfigRunner.New | pkg/controller/kogitoapp/definitions/build_config_runner.go:22-41 | Fails exactly when there is no S2I build, with that error. Otherwise the result is the runner build for that S2I build. |
| BuildConfigRunner.SetBuildSource | pkg/controller/kogitoapp/definitions/build_config_runner.go:43-56 | The source becomes an image source that copies the S2I output's build directory. Nothing else changes. |
| BuildConfigRunner.SetBuildStrategy | pkg/controller/kogitoapp/definitions/build_config_runner.go:58-67 | The strategy becomes a source strategy from the runtime image and has no environment. |
| BuildConfigRunner.SeTriggers | pkg/controller/kogitoapp/definitions/build_config_runner.go:69-76 | The triggers become exactly one image-change trigger on the S2I output. |
| BuildConfigRunner.AgreesWithChainStage | pkg/controller/kogitoapp/definitions/build_config_runner.go:22-41 | The stand-alone runner builder equals the runner stage of the chained builder exactly when the resource name equals the spec name. |
| ServiceAccounts.New | pkg/controller/kogitoapp/definitions/service_account.go:19-28 | Always succeeds. The account is `kogito-service` in the app's namespace, with stamped metadata. |
| RoleBindings.New | pkg/controller/kogitoapp/definitions/role_binding.go:20-40 | The binding is `kogito-service-view` in the account's namespace, with stamped metadata. It refers to the `view` Role. Its only subject is that service account. |
| DeploymentConfigs.CheckDeploymentDependencies | pkg/controller/kogitoapp/definitions/deployment_config.go:96-104 | No error exactly when both the build and the service account are present. A missing build is reported first, then a missing account. |
| DeploymentConfigs.KieKeyImportsLastSegment | pkg/controller/kogitoapp/definitions/deployment_config.go:121-123 | `IsKieKey`, the `strings.Contains` test, implies the key holds a `/`. So the imported key is a proper last segment, strictly shorter than the image label's key. |
| DeploymentConfigs.ImportedKey | pkg/controller/kogitoapp/definitions/deployment_config.go:122-123 | The imported key is the last `/`-segment and holds no `/`. |
| DeploymentConfigs.AddLabelsFromDockerImage | pkg/controller/kogitoapp/definitions/deployment_config.go:116-129 | An image without labels leaves the deployment unchanged. Otherwise the object and template labels and the selector each gain exactly the imported keys, and each imported key's value comes from an `org.kie/` label that imports it. All other entries and fields are kept, and the three maps agree on the imported keys. |
| DeploymentConfigs.PromotionOfDistinctKeys | pkg/controller/kogitoapp/definitions/deployment_config.go:120-127 | When no two `org.kie/` labels import the same key, each imported key holds its label's value, whatever the map order. |
| DeploymentConfigs.NoKieLabelsNoChange | pkg/controller/kogitoapp/definitions/deployment_config.go:120-128 | An image without `org.kie/` labels leaves the labels unchanged. |
| DeploymentConfigs.EntryPort | pkg/controller/kogitoapp/definitions/deployment_config.go:142-153 | Every port an entry yields is TCP, with a non-negative number. |
| DeploymentConfigs.EntryPortOf | pkg/controller/kogitoapp/definitions/deployment_config.go:142-153 | For every non-empty all-digit head, leading zeros included, and every name: the entry `head:name`, optionally followed by more `:`-parts, is well formed. It yields the TCP port numbered by the head's decimal value and called `name`. With `EntryPortSkipped`, this covers every well-formed entry. |
| DeploymentConfigs.EntryPortOfDecimal | pkg/controller/kogitoapp/definitions/deployment_config.go:142-153 | Printing a number `n` in decimal and parsing the entry `n:name` gives back port `n` called `name`. |
| DeploymentConfigs.EntryPortSkipped | pkg/controller/kogitoapp/definitions/deployment_config.go:147-151 | Every entry whose part before the first `:` is empty or not all digits is well formed and yields no port. |
| DeploymentConfigs.ParsedPorts | pkg/controller/kogitoapp/definitions/deployment_config.go:140-159 | There are no more ports than entries, and every port is TCP. |
| DeploymentConfigs.ParsedPortsAppend | pkg/controller/kogitoapp/definitions/deployment_config.go:141-153 | Parsing one more entry appends exactly that entry's port, if it has one. This is the loop step. |
| DeploymentConfigs.ProbeAt | pkg/controller/kogitoapp/definitions/deployment_config.go:155-158 | The probe is the default probe with only the TCP socket set to the port, or absent when there is no port. |
| DeploymentConfigs.HttpPortSound | pkg/controller/kogitoapp/definitions/deployment_config.go:154-158 | `HttpPort` is the probe choice. A port it finds is the port of some `http` entry, and no later entry is `http`. |
| DeploymentConfigs.HttpPortComplete | pkg/controller/kogitoapp/definitions/deployment_config.go:154-158 | When entry `i` is the last `http` entry, `HttpPort` finds exactly that entry's port number. |
| DeploymentConfigs.HttpPortNone | pkg/controller/kogitoapp/definitions/deployment_config.go:154-158 | No probe port is found exactly when no entry is `http`. |
| DeploymentConfigs.HttpPortIsParsed | pkg/controller/kogitoapp/definitions/deployment_config.go:164-169 | The probe port is one of the ports that were set, so a probe never appears without ports. |
| DeploymentConfigs.DiscoverPortsAndProbesFromImage | pkg/controller/kogitoapp/definitions/deployment_config.go:132-171 | With no port discovered, the deployment is unchanged. Otherwise the first container gets exactly the parsed ports, and both probes are set to the probe of the last `http` entry when there is one. |
| DeploymentConfigs.UnlabelledImagePlainDeployment | pkg/controller/kogitoapp/definitions/deployment_config.go:173-179 | `DockerImageHasLabels` guards both image steps. For a nil image, config or label map, the built deployment is exactly the stamped one with the replica count: no promoted label, no port, no probe. |
| DeploymentConfigs.SetReplicas | pkg/controller/kogitoapp/definitions/deployment_config.go:107-113 | The replicas are the app's count, or 1 when unset. Nothing else changes. |
| DeploymentConfigs.New | pkg/controller/kogitoapp/definitions/deployment_config.go:40-93 | Fails exactly when the build or the account is missing, with the ordered errors. Otherwise the result is the described deployment: a rolling strategy and one container. Other parts are listed below. |
| DeploymentConfigs.SelectorMatchesTemplate | pkg/controller/kogitoapp/definitions/deployment_config.go:85-127 | The selector of a built deployment equals its pod template's labels, so the deployment selects its own pods. |
| DeploymentConfigs.DeploymentCarriesPromotedLabel | pkg/controller/kogitoapp/definitions/deployment_config.go:120-127 | With distinct imported keys, every `org.kie/` label's value is on the deployment, its selector and its template. |
| DeploymentConfigs.AppLabelKept | pkg/controller/kogitoapp/definitions/deployment_config.go:85-127 | Unless an `org.kie/` label imports `app`, the deployment's `app` label, selector and template label are the app name. |
| GoStrings.Split | pkg/controller/kogitoapp/definitions/deployment_config.go:122 | Split gives at least one part, and no part contains the separator. |
| GoStrings.JoinSplit | pkg/controller/kogitoapp/definitions/deployment_config.go:140 | Joining the parts with the separator gives the original string back. |
| GoStrings.SplitHasSecondPart | pkg/controller/kogitoapp/definitions/deployment_config.go:152 | There is a second part exactly when the separator occurs. |
| GoStrings.ContainsAt | pkg/controller/kogitoapp/definitions/deployment_config.go:121 | `Contains` holds exactly when the substring occurs at some position. |
| GoStrings.ParseDecimal | pkg/controller/kogitoapp/definitions/deployment_config.go:147 | Parsing succeeds exactly on a non-empty string of digits. |
| GoStrings.ParseDecimalString | pkg/controller/kogitoapp/definitions/deployment_config.go:147 | Printing a number in decimal and parsing it gives the number back. |
| Kube.MessagesDistinct | pkg/controller/kogitoapp/definitions/deployment_config.go:98-100 | `Error.Message` gives the texts of build_config.go:98, deployment_config.go:98 and 100, service.go:38 and route.go:16. Two errors with the same text are the same error, so a text also determines the deployment or app name it carries. |
| Services.BuildServicePorts | pkg/controller/kogitoapp/definitions/service.go:33-52 | Fails exactly when there is no container or the first has no ports, naming the deployment. Otherwise there is one service port per container port, each forwarding to the same number. |
| Services.NewService | pkg/controller/kogitoapp/definitions/service.go:12-31 | Fails in the same cases. Otherwise the service is a ClusterIP named after the deployment, with the deployment's stamped metadata. It selects the deployment's pods and forwards exactly its container ports. |
| Routes.New | pkg/controller/kogitoapp/definitions/route.go:14-32 | Fails exactly without a service, naming the app. Otherwise the route targets that service by name on the `http` port, and carries its name, namespace and stamped metadata. |
| Composition.BuildAll | pkg/controller/kogitoapp/definitions/service_test.go:42-50 | Fails exactly when the image exposes no port. Otherwise the objects fit together, as listed below. |
| Scenario.TwoServices | pkg/controller/kogitoapp/definitions/deployment_config.go:140-159 | `8080:http,9000:grpc` gives ports 8080/http and 9000/grpc, and the probe on 8080. |
| Scenario.SkippedEntry | pkg/controller/kogitoapp/definitions/deployment_config.go:147-151 | A non-numeric entry `web:http` is skipped and gives no probe, but the next entry is still parsed. |
| Scenario.TestImageDiscovery | pkg/controller/kogitoapp/definitions/service_test.go:29-37 | The test image exposes exactly port 8080/http, with the probe on 8080. |
| Scenario.TestImagePromotion | pkg/controller/kogitoapp/definitions/service_test.go:29-37 | Of the test image's two labels, only `org.kie/operator` is promoted, as `operator`. |
| Scenario.ServiceWithAndWithoutDockerImage | pkg/controller/kogitoapp/definitions/service_test.go:12-55 | Without an image, the service fails for want of ports. With the test image, it has exactly one port, 8080, and carries `operator=kogito`. |

`DeploymentConfigs.New` also states these parts of the described deployment:

- the container is named after the app, uses the runner's output image, has the discovered ports
  and the probe twice, and has the service account's name;
- the triggers are a config change and an image change on the runner's output;
- the replicas are the app's count, or 1;
- the object and template metadata are stamped;
- the selector starts as `app` = name, and all three label maps then have the image's `org.kie/`
  labels promoted.

`Composition.BuildAll` also states that the objects fit together:

- the runner build outputs `<name>:latest`, and the container runs that image;
- the deployment runs as the `kogito-service` account, which is the role binding's subject;
- the service is named after the deployment and selects its pod template's labels;
- the service forwards exactly the discovered ports;
- the route targets the service and is named after the app.

## Left out

- Logging (`log.Warn`, `log.Warnf`) and the Kubernetes client are not modelled. No object is sent
  anywhere. The builders return values.
- `EntryPort` accepts only unsigned decimal digits. Go's `strconv.Atoi` also accepts a sign, fails
  on overflow of the platform `int`, and `int32(portNumber)` truncates. Neither signs nor
  truncation are modelled.
- `DiscoverPortsAndProbesFromImage` and `DeploymentConfigs.New` require that every entry with a
  numeric head contains `:` (`WellFormedExposeLabel`). Go indexes `ports[1]` unconditionally and
  panics otherwise, so the panic is excluded rather than modelled.
- `AddLabelsFromDockerImage` requires the three label maps to be allocated when the image has an
  `org.kie/` label. Go writes to them at deployment_config.go:124-126, and writing to a nil map
  panics. `DeploymentConfigs.New` always meets this, because the stamp allocates the maps first.
- `DiscoverPortsAndProbesFromImage` requires a container when some port is discovered. Go indexes
  `Containers[0]` at deployment_config.go:165, which panics on an empty list.
  `DeploymentConfigs.New` always meets this, because it builds exactly one container.
- The `len(ports) == 0` branch at deployment_config.go:143-146 cannot be taken, because
  `strings.Split` always returns at least one part (`GoStrings.Split`). It has no counterpart.
- The outer loop over all image labels at deployment_config.go:138-161 only acts on the one
  `io.openshift.expose-services` key, then breaks. It is modelled as a direct map lookup.
- `AddLabelsFromDockerImage`: Go map iteration order is an arbitrary choice. When two `org.kie/`
  labels import the same key, the contract says only that the value comes from one of them.
- Aliasing between objects:
  - service.go:19 and route.go:19 copy `ObjectMeta`, so the new object shares its label and
    annotation maps with the deployment or service it came from.
  - `defaultProbe` is a package-level pointer that deployment_config.go:156-157 mutates, and it is
    shared by both probes and by every deployment.
  - The model uses values throughout. In Go the service's stamp writes `app` back into the
    deployment's shared label map. This only differs from the model when an `org.kie/` label
    imported `app`.
- `shared.FromEnvToEnvVar` and `shared.FromResourcesToResourcesRequirements` are not part of this model. Environment and
  resources are copied as they are.
- `setGroupVersionKind` and `SetGroupVersionKind` are modelled as kind tags on each object. API
  groups and versions are not modelled.
- `Meta.AddDefaultLabels`: `addDefaultLabels` is defined outside the modelled files, so it is not part
  of this model. Here it allocates the map and sets the `app` label.
- The source dereferences some nil pointers unconditionally. `Spec.Build`, `GitSource` and
  `GitSource.URI` are non-optional fields here. A runner or deployment reads `Spec.Output.To` from
  another build. When that pointer is nil, the case is excluded by the requires of
  `BuildConfigs.InnerNew`, `BuildConfigRunner.New` and `DeploymentConfigs.New`. Nil-pointer panics
  are not modelled.
- `RuntimeType`: Go's runtime is a string. The model has one constructor each for `quarkus` and
  `springboot` and `OtherRuntime(s)` for any other string. It does not exclude
  `OtherRuntime("quarkus")`, which would get the zero image; such a value stands for no Go value.
- A runtime that is neither Quarkus nor Spring Boot gives the zero image (build_config.go:82-87), as
  the code does.
- `meta.go` declares `addDefaultMeta` over `*KogitoApp`, but build_config.go:115,
  role_binding.go:38 and service_account.go:26 pass `kogitoApp.Name`. The model stamps with a name
  string: `Spec.Name` where the app is passed, and the resource name where `Name` is passed.
- service_test.go calls builder signatures that differ slightly from the definitions modelled here. The
  scenario follows the definitions (`Composition.BuildAll`).
- `resources_factory.go` only declares a struct of four pointers to the builders, with no
  behaviour; it has no counterpart here. Object deletion is not part of this model.
  `Composition.BuildAll` builds the objects in the order service_test.go uses.
