/*******************************************************************************
 *  The operator's own types as the KogitoRuntime reconciler sees them: the
 *  custom resource, the service definition handed to the service deployer,
 *  and the service-viewer access-control objects.
 *******************************************************************************/

module Kogito {
  import opened Kube

  /** `v1beta1.RuntimeType`: a string-valued discriminator of the runtime flavour. */
  type RuntimeType = string

  /** The Quarkus flavour. Every other value, Spring Boot included, is "not Quarkus"
      to this controller. */
  const QuarkusRuntimeType: RuntimeType := "quarkus"

  /** A fetched `KogitoRuntime` instance: its identity and `runtime`, the value
      `GetSpec().GetRuntime()` returns for it. The rest of the spec is consumed
      only by the deployer. */
  datatype KogitoRuntime = KogitoRuntime(name: string, namespace: string, runtime: RuntimeType)

  /** `services.HealthCheckProbeType`. */
  datatype HealthCheckProbe = TCPHealthCheckProbe | QuarkusHealthCheckProbe

  /** `infrastructure.LatestTag`: the image tag used when the spec pins none. */
  const LatestTag: string := "latest"

  /** The three behaviours injected into the deployer. They are defined outside
      the controller file, so here they are opaque tags. */
  datatype DeploymentHook = OnDeploymentCreate
  datatype ObjectsHook = OnObjectsCreate
  datatype ComparatorsHook = OnGetComparators

  /** `services.ServiceDefinition`, restricted to the fields the controller sets. */
  datatype ServiceDefinition = ServiceDefinition(
    request: Request,
    defaultImageTag: string,
    singleReplica: bool,
    onDeploymentCreate: DeploymentHook,
    onObjectsCreate: ObjectsHook,
    onGetComparators: ComparatorsHook,
    customService: bool,
    healthCheckProbe: HealthCheckProbe)

  /** The service-viewer objects made by `getServiceViewerRole`,
      `getServiceViewerServiceAccount` and `getServiceViewerRoleBinding`, each
      in a namespace. Their other contents are built outside the controller file. */
  datatype RbacObject =
    | ServiceViewerRole(namespace: string)
    | ServiceViewerServiceAccount(namespace: string)
    | ServiceViewerRoleBinding(namespace: string)
}
