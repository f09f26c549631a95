# KogitoRuntime reconciler — a Dafny model

This project models the reconcile pass of the Kogito operator's `KogitoRuntimeReconciler` and the
event predicate that decides which `KogitoRuntime` watch events start a pass.

A pass for a request key works in fixed steps:

1. It fetches the `KogitoRuntime` instance.
2. It creates the service-viewer role, then the service account, then the role binding in the
   request's namespace (`setupRBAC`).
3. It mounts the instance's protobuf config map on the data index.
4. It builds the `ServiceDefinition`, using the Quarkus or the TCP health-check probe according to
   the runtime type.
5. It calls the service deployer once.
6. It turns the deployer's requeue hint into a `ctrl.Result`.

Any error stops the pass at once and is returned unchanged. An absent instance ends the pass quietly.

The collaborators are the fetch, `CreateIfNotExists`, the config-map mount and the deployer. Each is
reduced to the answer it gives for its arguments; together they form the `Cluster` value that a pass
reads. A pass returns the calls it made, in order, along with the `ctrl.Result` and the error. Its
reference partner is a generic fail-fast runner over a planned list of calls (`Cluster.FailFast`).
The project proves that `setupRBAC` is exactly such a run, and so is the whole pass once the fetch
has found the instance.

Files:

- `kube.dfy`: module `Kube`. Options, errors, requests, results, object metadata and watch events.
- `kogito.dfy`: module `Kogito`. The `KogitoRuntime` instance, runtime type, probe kinds, the
  service definition and the service-viewer objects.
- `cluster.dfy`: module `Cluster`. Collaborator answers, calls, and the fail-fast reference.
- `reconciler.dfy`: module `Reconciler`. `setupRBAC`, probe selection, the service definition, the
  requeue mapping and `Reconcile`.
- `reconciler_props.dfy`: module `ReconcilerProps`. Lemmas relating passes to the reference, to
  the step order and to the answers consulted.
- `event_filter.dfy`: module `EventFilter`. The predicate and its application to an event stream.

## Model

| member | source | states |
|---|---|---|
| Reconciler.Reconcile | controllers/kogitoruntime_controller.go:59-104 | The fetch of the request's key always comes first. A fetch error is returned with the zero result after that call alone. An absent instance gives the zero result and no error after that call alone. Otherwise the pass is a fail-fast run of fetch, role, service account, role binding, mount, deploy. An error never comes with a requeue. A requeue happens only after a successful deploy with a positive hint, and uses exactly that hint. |
| Reconciler.SetupRBAC | controllers/kogitoruntime_controller.go:133-152 | The role, the service account and the role binding are created in that order, all in the given namespace, stopping at the first error and returning it. The service account is attempted only if the role create succeeded. The role binding is attempted only if both earlier creates succeeded. No error is returned only when all three succeed. |
| Reconciler.ProbeFor | controllers/kogitoruntime_controller.go:80-83 | The probe is the Quarkus probe exactly when the runtime type is the Quarkus type, and the TCP probe exactly when it is not. |
| Reconciler.NewServiceDefinition | controllers/kogitoruntime_controller.go:84-93 | The definition carries the request, the latest image tag, `SingleReplica = false`, `CustomService = true` and the three hook tags. Its probe is the Quarkus probe exactly for the Quarkus runtime. |
| Reconciler.RequeueResult | controllers/kogitoruntime_controller.go:98-103 | A requeue is requested exactly when the hint is positive, and then after exactly the hinted duration rather than a fixed 30 seconds. Otherwise the result is the zero result. |
| Cluster.FailFast | controllers/kogitoruntime_controller.go:71-97 | Running planned calls fail-fast makes a prefix of the plan in order. Every call before the last succeeds. The run stops early only at a failing call and returns that call's error. It ends without error exactly when every planned call succeeds. |
| Cluster.FailFastShapeIsFailFast | controllers/kogitoruntime_controller.go:71-97 | The fail-fast shape determines the run: any run with that shape equals the one the runner makes. |
| ReconcilerProps.SetupRBACIsFailFast | controllers/kogitoruntime_controller.go:133-152 | `setupRBAC` equals the fail-fast run of its three creates. |
| ReconcilerProps.ReconcileIsFailFast | controllers/kogitoruntime_controller.go:71-97 | Once the instance is found, the calls and the error of a pass equal the fail-fast run of fetch, role, service account, role binding, mount and deploy. |
| ReconcilerProps.ReconcileCallsInStepOrder | controllers/kogitoruntime_controller.go:62-97 | The i-th call of every pass is step i of fetch, role, service account, role binding, mount, deploy. So no step is skipped, repeated or reordered, and a pass makes at most six calls. |
| ReconcilerProps.ReconcileDependsOnlyOnCallsMade | controllers/kogitoruntime_controller.go:62-97 | Two clusters that give the same answers to the calls a pass made yield the same outcome. What collaborators would have answered after the failing step has no effect. |
| ReconcilerProps.DeployCallCarriesDefinition | controllers/kogitoruntime_controller.go:80-94 | A deploy call happens only after a fetch that found an instance without error, and it receives that instance. Its definition has the request, the latest tag, `SingleReplica = false`, `CustomService = true`, and the probe that the runtime type selects. |
| ReconcilerProps.DeployErrorIsReturnedWithoutRequeue | controllers/kogitoruntime_controller.go:94-97 | When every earlier step succeeds and the deployer fails, the pass has made every call and returns the deployer's error with the zero result. |
| ReconcilerProps.RequeueFollowsDeployHint | controllers/kogitoruntime_controller.go:98-103 | When every step succeeds, the pass returns no error. A positive hint gives `Requeue = true` with `RequeueAfter` equal to the hint. A hint of zero or less gives the zero result. |
| ReconcilerProps.RequeueExamples | controllers/kogitoruntime_controller.go:98-101 | A 30-second hint gives a requeue after 30 seconds and no error. A 45-second hint gives a requeue after 45 seconds, even though the log message says 30. |
| EventFilter.Admit | controllers/kogitoruntime_controller.go:110-118 | Delete events are never admitted. An update is admitted exactly when the new object's deletion timestamp is nil or zero. Create and generic events are admitted. |
| EventFilter.UpdateIgnoresOldObject | controllers/kogitoruntime_controller.go:115-117 | Whether an update is admitted depends only on the new object's metadata. |
| EventFilter.Admitted | controllers/kogitoruntime_controller.go:110-120 | The reference filter that `FilterEvents` refines. Every event it keeps is admitted by the predicate, and it never keeps more events than the stream holds. |
| EventFilter.AdmittedAppend | controllers/kogitoruntime_controller.go:110-120 | The filter judges each event on its own: filtering a concatenated stream equals concatenating the filtered parts. |
| EventFilter.AdmittedMembers | controllers/kogitoruntime_controller.go:110-120 | An event is in the filtered stream exactly when it is in the input stream and admitted. So no delete event and no update of a terminating object ever starts a pass. |
| EventFilter.FilterEvents | controllers/kogitoruntime_controller.go:110-120 | Applying the predicate to a stream keeps exactly the admitted events, in stream order. An event is kept exactly when it is in the input and admitted. |

## Left out

- The internals of `FetchKogitoRuntimeService`, `CreateIfNotExists`, `MountProtoBufConfigMapOnDataIndex` and `ServiceDeployer.Deploy`. They call the cluster API or code outside the controller file, so each is only the answer the `Cluster` value gives for its arguments. Nothing is claimed about the idempotence of `CreateIfNotExists`.
- Repeating a pass. A pass is a pure function of the collaborators' answers. How a pass changes the cluster, and therefore the answers a later pass sees, belongs to the collaborators and is not modelled.
- The `onDeploymentCreate`, `onObjectsCreate` and `onGetComparators` hooks. They are defined outside the controller file, so they are opaque tags stored in the definition.
- The builder wiring in `SetupWithManager`: `Owns`, `Watches`, the `IsOpenshift` branch and `Complete`. This is controller-runtime plumbing.
- The `KogitoInfra` owner fan-out. It is done by the controller runtime's `EnqueueRequestForOwner`, which is not part of this model.
- Create and generic events are admitted because `predicate.Funcs` treats an unset function as "admit". That default belongs to the controller runtime, not to this file.
- Scheduler concurrency, per-key serialisation and request coalescing, because they are external to the pass.
- Logging, including the message that names a fixed 30-second wait, and the kubebuilder RBAC marker comments.
- `time.Duration` is an unbounded `int`. The pass only compares the hint with zero and copies it, so 64-bit bounds play no part.
- `metav1.Time` is reduced to an "is zero" flag behind an optional pointer.
- An update event with a nil new object would make the predicate dereference nil. Events here always carry their metadata.
- The values of `QuarkusRuntimeType` ("quarkus") and `LatestTag` ("latest") are defined in `api/v1beta1` and `pkg/infrastructure`, which are not part of this model. Only their identity matters here.
- The collaborators are assumed not to change the instance they receive. Go passes the same `*KogitoRuntime` pointer to the mount at line 75, reads its runtime type at line 81 and passes it to the deployer at line 94. The model treats the instance as an immutable value.
- `KogitoRuntime.runtime` stands for the value `instance.GetSpec().GetRuntime()` returns. That getter is defined outside the controller file.
- The service-viewer role, service account and role binding are reduced to their kind and namespace. Their contents are built outside the controller file.

The log message at controllers/kogitoruntime_controller.go:99 names a fixed 30-second wait. Line 100
copies whatever duration the deployer returns, and the model follows line 100.
