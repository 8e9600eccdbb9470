/** The service account the application runs as (service_account.go). */
module ServiceAccounts {
  import opened Wrappers
  import opened Kube
  import Meta

  /** The fixed name of the service account. */
  const ServiceAccountName := "kogito-service"

  /**
   * serviceAccountResource.New: always named `kogito-service`, in the application's namespace,
   * stamped with the application's object name; the error is always nil.
   */
  method New(app: KogitoApp) returns (r: Result<ServiceAccount, Error>)
    ensures r.Success?
    ensures r.value.meta == Meta.StampMeta(NewMeta(ServiceAccountName, app.namespace), app.name)
    ensures r.value.meta.name == "kogito-service" && r.value.meta.namespace == app.namespace
  {
    var sa := ServiceAccount(NewMeta(ServiceAccountName, app.namespace));
    var meta := Meta.AddDefaultMeta(Some(sa.meta), app.name);
    sa := sa.(meta := meta.value);
    return Success(sa);
  }
}
