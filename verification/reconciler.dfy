/*******************************************************************************
 *  One reconcile pass of the KogitoRuntime controller: fetch the instance,
 *  create the service-viewer role, service account and role binding, mount the
 *  protobuf config map on the data index, build the service definition and
 *  hand it to the service deployer, then turn the deployer's requeue hint into
 *  a `ctrl.Result`. Every step stops the pass at its first error.
 *******************************************************************************/

module Reconciler {
  import opened Kube
  import opened Kogito
  import opened Cluster

  /** What a pass returns, together with the calls it made, in order. */
  datatype Outcome = Outcome(trace: seq<Call>, result: Result, err: Option<Error>)

  /** The creates `setupRBAC` makes, in the order it makes them. */
  function RbacPlan(namespace: string): seq<Call>
  {
    [ CreateCall(ServiceViewerRole(namespace)),
      CreateCall(ServiceViewerServiceAccount(namespace)),
      CreateCall(ServiceViewerRoleBinding(namespace)) ]
  }

  /** `setupRBAC`: create the role, then the service account, then the role
      binding, all in `namespace`, returning the first error met. */
  function SetupRBAC(c: Cluster, namespace: string): (r: Run)
    ensures FailFastShape(c, RbacPlan(namespace), r)
    ensures |r.trace| > 0 && r.trace[0] == CreateCall(ServiceViewerRole(namespace))
    ensures forall i :: 0 <= i < |r.trace| ==> r.trace[i].CreateCall? && r.trace[i].obj.namespace == namespace
    ensures (CreateCall(ServiceViewerServiceAccount(namespace)) in r.trace) <==>
              c.createIfNotExists(ServiceViewerRole(namespace)).None?
    ensures (CreateCall(ServiceViewerRoleBinding(namespace)) in r.trace) <==>
              && c.createIfNotExists(ServiceViewerRole(namespace)).None?
              && c.createIfNotExists(ServiceViewerServiceAccount(namespace)).None?
    ensures r.err.None? <==>
              && c.createIfNotExists(ServiceViewerRole(namespace)).None?
              && c.createIfNotExists(ServiceViewerServiceAccount(namespace)).None?
              && c.createIfNotExists(ServiceViewerRoleBinding(namespace)).None?
  {
    var role := ServiceViewerRole(namespace);
    var account := ServiceViewerServiceAccount(namespace);
    var binding := ServiceViewerRoleBinding(namespace);
    var roleErr := c.createIfNotExists(role);
    if roleErr.Some? then Run([CreateCall(role)], roleErr)
    else
      var accountErr := c.createIfNotExists(account);
      if accountErr.Some? then Run([CreateCall(role), CreateCall(account)], accountErr)
      else
        var bindingErr := c.createIfNotExists(binding);
        Run([CreateCall(role), CreateCall(account), CreateCall(binding)], bindingErr)
  }

  /** The health-check probe for a runtime type: the Quarkus probe for the
      Quarkus runtime, the plain TCP probe for every other runtime. */
  function ProbeFor(runtime: RuntimeType): (p: HealthCheckProbe)
    ensures p == QuarkusHealthCheckProbe <==> runtime == QuarkusRuntimeType
    ensures p == TCPHealthCheckProbe <==> runtime != QuarkusRuntimeType
  {
    if runtime == QuarkusRuntimeType then QuarkusHealthCheckProbe else TCPHealthCheckProbe
  }

  /** The service definition the pass hands to the deployer for `instance`. */
  function NewServiceDefinition(req: Request, instance: KogitoRuntime): (d: ServiceDefinition)
    ensures d.request == req
    ensures d.defaultImageTag == LatestTag
    ensures !d.singleReplica && d.customService
    ensures d.onDeploymentCreate == OnDeploymentCreate
    ensures d.onObjectsCreate == OnObjectsCreate
    ensures d.onGetComparators == OnGetComparators
    ensures d.healthCheckProbe == QuarkusHealthCheckProbe <==> instance.runtime == QuarkusRuntimeType
  {
    ServiceDefinition(
      request := req,
      defaultImageTag := LatestTag,
      singleReplica := false,
      onDeploymentCreate := OnDeploymentCreate,
      onObjectsCreate := OnObjectsCreate,
      onGetComparators := OnGetComparators,
      customService := true,
      healthCheckProbe := ProbeFor(instance.runtime))
  }

  /** The result for a deployer that returned `requeueAfter` and no error: a
      requeue after exactly that delay when it is positive, the zero result
      otherwise. */
  function RequeueResult(requeueAfter: Duration): (r: Result)
    ensures r.requeue <==> requeueAfter > 0
    ensures r.requeue ==> r.requeueAfter == requeueAfter
    ensures !r.requeue ==> r == ZeroResult
  {
    if requeueAfter > 0 then Result(requeue := true, requeueAfter := requeueAfter) else ZeroResult
  }

  /** Every call a pass makes once the fetch has found `instance`, in order. */
  function Plan(req: Request, instance: KogitoRuntime): seq<Call>
  {
    [FetchCall(req.name, req.namespace)]
    + RbacPlan(req.namespace)
    + [MountCall(instance), DeployCall(NewServiceDefinition(req, instance), instance)]
  }

  /** `Reconcile`: one pass for the key `req`. */
  function Reconcile(c: Cluster, req: Request): (o: Outcome)
    // The fetch for the request's key always comes first.
    ensures |o.trace| > 0 && o.trace[0] == FetchCall(req.name, req.namespace)
    // A failed fetch ends the pass with its error and the zero result.
    ensures var f := c.fetch(req.name, req.namespace);
            f.err.Some? ==> o == Outcome([FetchCall(req.name, req.namespace)], ZeroResult, f.err)
    // An absent instance ends the pass quietly.
    ensures var f := c.fetch(req.name, req.namespace);
            f.err.None? && f.instance.None? ==> o == Outcome([FetchCall(req.name, req.namespace)], ZeroResult, None)
    // Otherwise the pass is the fail-fast run of the plan for the fetched instance.
    ensures var f := c.fetch(req.name, req.namespace);
            f.err.None? && f.instance.Some? ==> FailFastShape(c, Plan(req, f.instance.value), Run(o.trace, o.err))
    // An error never comes with a requeue.
    ensures o.err.Some? ==> o.result == ZeroResult
    // A requeue is requested only after a successful deploy with a positive hint,
    // and then after exactly the hinted delay.
    ensures o.result.requeue ==>
              && o.err.None?
              && o.trace[|o.trace| - 1].DeployCall?
              && var last := o.trace[|o.trace| - 1];
                 o.result.requeueAfter == c.deploy(last.definition, last.instance).requeueAfter > 0
    ensures !o.result.requeue ==> o.result == ZeroResult
  {
    var fetchCall := FetchCall(req.name, req.namespace);
    var f := c.fetch(req.name, req.namespace);
    if f.err.Some? then Outcome([fetchCall], ZeroResult, f.err)
    else if f.instance.None? then Outcome([fetchCall], ZeroResult, None)
    else
      var instance := f.instance.value;
      var rbac := SetupRBAC(c, req.namespace);
      var afterRbac := [fetchCall] + rbac.trace;
      if rbac.err.Some? then Outcome(afterRbac, ZeroResult, rbac.err)
      else
        var mountErr := c.mountProtoBuf(instance);
        var afterMount := afterRbac + [MountCall(instance)];
        if mountErr.Some? then Outcome(afterMount, ZeroResult, mountErr)
        else
          var definition := NewServiceDefinition(req, instance);
          var deployed := c.deploy(definition, instance);
          var afterDeploy := afterMount + [DeployCall(definition, instance)];
          if deployed.err.Some? then Outcome(afterDeploy, ZeroResult, deployed.err)
          else Outcome(afterDeploy, RequeueResult(deployed.requeueAfter), None)
  }
}
