/**
 * The chain of dependent objects built from one KogitoApp: S2I and runner builds, the service
 * account and its role binding, the DeploymentConfig, its Service and the Route, in the order
 * service_test.go builds them.
 */
module Composition {
  import opened Wrappers
  import opened Kube
  import Meta
  import BuildConfigs
  import ServiceAccounts
  import RoleBindings
  import DeploymentConfigs
  import Services
  import Routes

  datatype Resources = Resources(
    builds: BuildConfigs.BuildConfigComposition,
    serviceAccount: ServiceAccount,
    roleBinding: RoleBinding,
    deployment: DeploymentConfig,
    service: Service,
    route: Route)

  /**
   * How the objects refer to each other: the DC runs the runner build's output image under the
   * service account the role binding names; the service selects the DC's pods and forwards to
   * its container ports; the route targets the service by name.
   */
  ghost predicate ResourcesFor(app: KogitoApp, image: Option<DockerImage>, res: Resources)
    requires DeploymentConfigs.WellFormedExposeLabel(image)
  {
    && res.builds.buildRunner.outputTo == Some(BuildConfigs.OutputReference(app.spec.name))
    && DeploymentConfigs.IsDeploymentFor(app, res.builds.buildRunner, res.serviceAccount, image, res.deployment)
    && res.deployment.template.spec.containers[0].image == res.builds.buildRunner.outputTo.value.name
    && res.serviceAccount.meta.name == ServiceAccounts.ServiceAccountName
    && res.roleBinding.subjects == [Subject(RoleBindings.SubjectKind, app.namespace, ServiceAccounts.ServiceAccountName)]
    && res.deployment.template.spec.serviceAccountName == res.roleBinding.subjects[0].name
    && res.service.meta == Meta.StampMeta(res.deployment.meta, app.spec.name)
    && res.service.meta.name == res.deployment.meta.name == app.spec.name
    && res.service.selector == res.deployment.template.meta.labels
    && Services.TargetContainerPorts(res.service.ports) == DeploymentConfigs.DiscoveredPorts(image)
    && Services.ForwardsToSameNumber(res.service.ports)
    && res.route.to == RouteTargetReference(ServiceKind, res.service.meta.name)
    && res.route.meta.name == app.spec.name && res.route.meta.namespace == app.namespace
  }

  /**
   * Builds the whole chain. The builds, the service account and the DC always succeed here, so
   * the chain fails exactly when the image advertises no port, and then with the service error.
   */
  method BuildAll(app: KogitoApp, image: Option<DockerImage>) returns (r: Result<Resources, Error>)
    requires DeploymentConfigs.WellFormedExposeLabel(image)
    ensures r.Failure? <==> DeploymentConfigs.DiscoveredPorts(image) == []
    ensures r.Failure? ==> r.error == NoServicePorts(app.spec.name)
    ensures r.Success? ==> ResourcesFor(app, image, r.value)
  {
    var builds := BuildConfigs.New(app);
    var sa := ServiceAccounts.New(app);
    var rb := RoleBindings.New(app, sa.value);
    var dc := DeploymentConfigs.New(app, Some(builds.value.buildRunner), Some(sa.value), image);
    var service := Services.NewService(app, dc.value);
    if service.Failure? {
      return Failure(service.error);
    }
    var route := Routes.New(app, Some(service.value));
    DeploymentConfigs.SelectorMatchesTemplate(app, builds.value.buildRunner, sa.value, image, dc.value);
    return Success(Resources(builds.value, sa.value, rb, dc.value, service.value, route.value));
  }
}
