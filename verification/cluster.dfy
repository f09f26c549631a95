/*******************************************************************************
 *  The collaborators of a reconcile pass, each reduced to the answer it gives
 *  for its arguments, and the calls a pass makes to them. A generic fail-fast
 *  runner over a planned list of calls is the reference against which the
 *  controller's straight-line code is checked.
 *******************************************************************************/

module Cluster {
  import opened Kube
  import opened Kogito

  /** What `FetchKogitoRuntimeService` returns: a possibly nil instance and a
      possibly nil error. */
  datatype FetchOutcome = FetchOutcome(instance: Option<KogitoRuntime>, err: Option<Error>)

  /** What `ServiceDeployer.Deploy` returns: a requeue hint and a possibly nil error. */
  datatype DeployOutcome = DeployOutcome(requeueAfter: Duration, err: Option<Error>)

  /** The cluster as seen by one pass: the answer each collaborator gives for
      given arguments. */
  datatype Cluster = Cluster(
    fetch: (string, string) -> FetchOutcome,
    createIfNotExists: RbacObject -> Option<Error>,
    mountProtoBuf: KogitoRuntime -> Option<Error>,
    deploy: (ServiceDefinition, KogitoRuntime) -> DeployOutcome)

  /** One call a pass makes, with its arguments. */
  datatype Call =
    | FetchCall(name: string, namespace: string)
    | CreateCall(obj: RbacObject)
    | MountCall(instance: KogitoRuntime)
    | DeployCall(definition: ServiceDefinition, instance: KogitoRuntime)

  /** The error, if any, that the cluster answers to a call. */
  function ErrorOf(c: Cluster, call: Call): Option<Error>
  {
    match call
    case FetchCall(name, namespace) => c.fetch(name, namespace).err
    case CreateCall(obj) => c.createIfNotExists(obj)
    case MountCall(instance) => c.mountProtoBuf(instance)
    case DeployCall(definition, instance) => c.deploy(definition, instance).err
  }

  /** The calls made so far and the error that ended them, if any. */
  datatype Run = Run(trace: seq<Call>, err: Option<Error>)

  /** `run` is the fail-fast execution of `plan`: it made a prefix of the planned
      calls in order; every call before the last succeeded; it stopped early only
      at a call that failed, and returned exactly that call's error. */
  ghost predicate FailFastShape(c: Cluster, plan: seq<Call>, run: Run)
  {
    && |run.trace| <= |plan|
    && run.trace == plan[..|run.trace|]
    && (forall i :: 0 <= i < |run.trace| - 1 ==> ErrorOf(c, run.trace[i]).None?)
    && (run.err.None? ==>
          run.trace == plan && forall i :: 0 <= i < |run.trace| ==> ErrorOf(c, run.trace[i]).None?)
    && (run.err.Some? ==> |run.trace| > 0 && ErrorOf(c, run.trace[|run.trace| - 1]) == run.err)
  }

  /** Make the planned calls one after another, stopping at the first error. */
  function FailFast(c: Cluster, plan: seq<Call>): (r: Run)
    ensures FailFastShape(c, plan, r)
    ensures r.err.None? <==> forall i :: 0 <= i < |plan| ==> ErrorOf(c, plan[i]).None?
    decreases |plan|
  {
    if |plan| == 0 then Run([], None)
    else
      var e := ErrorOf(c, plan[0]);
      if e.Some? then Run([plan[0]], e)
      else
        var rest := FailFast(c, plan[1..]);
        assert forall i :: 1 <= i < |plan| ==> plan[i] == plan[1..][i - 1];
        Run([plan[0]] + rest.trace, rest.err)
  }

  /** The shape pins the run down: any run of that shape is the one `FailFast` makes,
      so the declarative shape and the recursive runner agree on every input. */
  lemma FailFastShapeIsFailFast(c: Cluster, plan: seq<Call>, r: Run)
    requires FailFastShape(c, plan, r)
    ensures r == FailFast(c, plan)
  {
  }
}
