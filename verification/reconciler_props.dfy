/*******************************************************************************
 *  Properties of a reconcile pass that relate it to the fail-fast reference,
 *  to the order of its steps, and to the collaborators it did not consult.
 *******************************************************************************/

module ReconcilerProps {
  import opened Kube
  import opened Kogito
  import opened Cluster
  import opened Reconciler

  /** The position of a call among the steps of a pass: the fetch, the three
      creates in their fixed order, the mount, the deploy. */
  function Rank(call: Call): nat
  {
    match call
    case FetchCall(_, _) => 0
    case CreateCall(obj) =>
      (match obj
       case ServiceViewerRole(_) => 1
       case ServiceViewerServiceAccount(_) => 2
       case ServiceViewerRoleBinding(_) => 3)
    case MountCall(_) => 4
    case DeployCall(_, _) => 5
  }

  /** Two clusters give the same answer to `call`. */
  predicate SameAnswer(c1: Cluster, c2: Cluster, call: Call)
  {
    match call
    case FetchCall(name, namespace) => c1.fetch(name, namespace) == c2.fetch(name, namespace)
    case CreateCall(obj) => c1.createIfNotExists(obj) == c2.createIfNotExists(obj)
    case MountCall(instance) => c1.mountProtoBuf(instance) == c2.mountProtoBuf(instance)
    case DeployCall(definition, instance) => c1.deploy(definition, instance) == c2.deploy(definition, instance)
  }

  /** `setupRBAC` is the fail-fast run of its three creates. */
  lemma SetupRBACIsFailFast(c: Cluster, namespace: string)
    ensures SetupRBAC(c, namespace) == FailFast(c, RbacPlan(namespace))
  {
    FailFastShapeIsFailFast(c, RbacPlan(namespace), SetupRBAC(c, namespace));
  }

  /** Once the instance is found, the pass is the fail-fast run of its plan. */
  lemma ReconcileIsFailFast(c: Cluster, req: Request)
    requires c.fetch(req.name, req.namespace).err.None?
    requires c.fetch(req.name, req.namespace).instance.Some?
    ensures var o := Reconcile(c, req);
            Run(o.trace, o.err) == FailFast(c, Plan(req, c.fetch(req.name, req.namespace).instance.value))
  {
    var o := Reconcile(c, req);
    FailFastShapeIsFailFast(c, Plan(req, c.fetch(req.name, req.namespace).instance.value), Run(o.trace, o.err));
  }

  /** The i-th call of every pass is step i: steps run in the order fetch, role,
      service account, role binding, mount, deploy, none is skipped and none
      runs twice. */
  lemma ReconcileCallsInStepOrder(c: Cluster, req: Request)
    ensures var o := Reconcile(c, req);
            |o.trace| <= 6 && forall i :: 0 <= i < |o.trace| ==> Rank(o.trace[i]) == i
  {
    var o := Reconcile(c, req);
    var f := c.fetch(req.name, req.namespace);
    if f.err.None? && f.instance.Some? {
      var plan := Plan(req, f.instance.value);
      assert forall i :: 0 <= i < |plan| ==> Rank(plan[i]) == i;
      assert forall i :: 0 <= i < |o.trace| ==> o.trace[i] == plan[i];
    }
  }

  /** A pass depends only on the answers to the calls it made: a cluster that
      answers those calls the same way gives the same outcome, whatever it would
      have answered to the steps the pass never reached. */
  lemma ReconcileDependsOnlyOnCallsMade(c1: Cluster, c2: Cluster, req: Request)
    requires var o := Reconcile(c1, req);
             forall i :: 0 <= i < |o.trace| ==> SameAnswer(c1, c2, o.trace[i])
    ensures Reconcile(c1, req) == Reconcile(c2, req)
  {
    var o := Reconcile(c1, req);
    assert SameAnswer(c1, c2, o.trace[0]);
    var f := c1.fetch(req.name, req.namespace);
    if f.err.None? && f.instance.Some? {
      var plan := Plan(req, f.instance.value);
      assert forall i :: 0 <= i < |o.trace| ==> o.trace[i] == plan[i];
      var ns := req.namespace;
      if c1.createIfNotExists(ServiceViewerRole(ns)).None? {
        assert SameAnswer(c1, c2, o.trace[1]);
        if c1.createIfNotExists(ServiceViewerServiceAccount(ns)).None? {
          assert SameAnswer(c1, c2, o.trace[2]);
          if c1.createIfNotExists(ServiceViewerRoleBinding(ns)).None? {
            assert SameAnswer(c1, c2, o.trace[3]);
            assert SameAnswer(c1, c2, o.trace[4]);
            if c1.mountProtoBuf(f.instance.value).None? {
              assert SameAnswer(c1, c2, o.trace[5]);
            }
          }
        }
      }
    }
  }

  /** The deployer is called, if at all, with the fetched instance and a
      definition carrying the controller's constants and the probe its runtime
      type selects. */
  lemma DeployCallCarriesDefinition(c: Cluster, req: Request, i: nat)
    requires i < |Reconcile(c, req).trace| && Reconcile(c, req).trace[i].DeployCall?
    ensures var f := c.fetch(req.name, req.namespace);
            var call := Reconcile(c, req).trace[i];
            && f.err.None? && f.instance == Some(call.instance)
            && call.definition.request == req
            && call.definition.defaultImageTag == LatestTag
            && !call.definition.singleReplica
            && call.definition.customService
            && ((call.definition.healthCheckProbe == QuarkusHealthCheckProbe) <==>
                (call.instance.runtime == QuarkusRuntimeType))
  {
    ReconcileCallsInStepOrder(c, req);
  }

  /** A deploy error is returned unchanged, after every step, with no requeue. */
  lemma DeployErrorIsReturnedWithoutRequeue(c: Cluster, req: Request)
    requires var f := c.fetch(req.name, req.namespace);
             && f.err.None? && f.instance.Some?
             && SetupRBAC(c, req.namespace).err.None?
             && c.mountProtoBuf(f.instance.value).None?
             && c.deploy(NewServiceDefinition(req, f.instance.value), f.instance.value).err.Some?
    ensures var instance := c.fetch(req.name, req.namespace).instance.value;
            Reconcile(c, req)
              == Outcome(Plan(req, instance), ZeroResult,
                         c.deploy(NewServiceDefinition(req, instance), instance).err)
  {
  }

  /** A successful deploy requeues after exactly the delay it returned when that
      delay is positive, and converges otherwise. */
  lemma RequeueFollowsDeployHint(c: Cluster, req: Request)
    requires var f := c.fetch(req.name, req.namespace);
             && f.err.None? && f.instance.Some?
             && SetupRBAC(c, req.namespace).err.None?
             && c.mountProtoBuf(f.instance.value).None?
             && c.deploy(NewServiceDefinition(req, f.instance.value), f.instance.value).err.None?
    ensures var instance := c.fetch(req.name, req.namespace).instance.value;
            var hint := c.deploy(NewServiceDefinition(req, instance), instance).requeueAfter;
            var o := Reconcile(c, req);
            && o.trace == Plan(req, instance)
            && o.err.None?
            && (hint > 0 ==> o.result == Result(true, hint))
            && (hint <= 0 ==> o.result == ZeroResult)
  {
  }

  /** A cluster where everything succeeds and the deployer asks to be called
      again after `hint`. */
  function ConvergingCluster(instance: KogitoRuntime, hint: Duration): Cluster
  {
    Cluster(
      fetch := (name, namespace) => FetchOutcome(Some(instance), None),
      createIfNotExists := obj => None,
      mountProtoBuf := i => None,
      deploy := (d, i) => DeployOutcome(hint, None))
  }

  /** A 30-second hint yields "requeue after 30 seconds", not an error; a
      45-second hint yields 45 seconds, not the 30 seconds the log line names. */
  lemma RequeueExamples(req: Request, instance: KogitoRuntime)
    ensures Reconcile(ConvergingCluster(instance, 30 * Second), req).result == Result(true, 30 * Second)
    ensures Reconcile(ConvergingCluster(instance, 30 * Second), req).err == None
    ensures Reconcile(ConvergingCluster(instance, 45 * Second), req).result == Result(true, 45 * Second)
  {
  }
}
