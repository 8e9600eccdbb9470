/** The Route of route.go: exposes a Service's `http` port outside the cluster. */
module Routes {
  import opened Wrappers
  import opened Kube
  import Meta
  import opened DeploymentConfigs

  /**
   * New: fails without a service, naming the application; otherwise a route carrying the
   * service's metadata with the default metadata added, targeting the service's `http` port.
   */
  method New(app: KogitoApp, service: Option<Service>) returns (r: Result<Route, Error>)
    ensures r.Failure? <==> service.None?
    ensures r.Failure? ==> r.error == MissingService(app.name)
    ensures r.Success? ==> r.value.kind == RouteKind
    ensures r.Success? ==> r.value.meta == Meta.StampMeta(service.value.meta, app.spec.name)
    ensures r.Success? ==> r.value.targetPort == StringValue(DefaultExportedProtocol)
    ensures r.Success? ==> r.value.to == RouteTargetReference(ServiceKind, service.value.meta.name)
    ensures r.Success? ==> r.value.meta.name == r.value.to.name && r.value.meta.namespace == service.value.meta.namespace
  {
    if service.None? {
      return Failure(MissingService(app.name));
    }
    var route := Route(NoKind, service.value.meta, StringValue(DefaultExportedProtocol),
                       RouteTargetReference(ServiceKind, service.value.meta.name));
    var meta := Meta.AddDefaultMeta(Some(route.meta), app.spec.name);
    route := route.(meta := meta.value);
    route := route.(kind := RouteKind);
    return Success(route);
  }
}
