/** The binding of the `view` role to the service account (role_binding.go). */
module RoleBindings {
  import opened Kube
  import opened Wrappers
  import Meta
  import ServiceAccounts

  const DefaultRoleName := "view"
  const DefaultRoleType := "Role"
  const SubjectKind := "ServiceAccount"

  /**
   * roleBindingResource.New: `kogito-service-view` in the service account's namespace, binding the
   * Role `view` to exactly that service account; stamped with the application's object name.
   */
  method New(app: KogitoApp, serviceAccount: ServiceAccount) returns (rb: RoleBinding)
    ensures rb.meta == Meta.StampMeta(NewMeta("kogito-service-view", serviceAccount.meta.namespace), app.name)
    ensures rb.roleRef == RoleRef("Role", "view")
    ensures rb.subjects == [Subject("ServiceAccount", serviceAccount.meta.namespace, serviceAccount.meta.name)]
  {
    rb := RoleBinding(
      NewMeta(ServiceAccounts.ServiceAccountName + "-" + DefaultRoleName, serviceAccount.meta.namespace),
      RoleRef(DefaultRoleType, DefaultRoleName),
      [Subject(SubjectKind, serviceAccount.meta.namespace, serviceAccount.meta.name)]);
    var meta := Meta.AddDefaultMeta(Some(rb.meta), app.name);
    rb := rb.(meta := meta.value);
  }
}
