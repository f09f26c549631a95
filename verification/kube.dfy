/*******************************************************************************
 *  Vocabulary of the controller runtime that the KogitoRuntime reconciler uses:
 *  optional values, errors, reconcile requests and results, and the object
 *  metadata carried by watch events.
 *******************************************************************************/

module Kube {

  /** A value that may be absent; stands for Go's nil pointers and nil errors. */
  datatype Option<+T> = None | Some(value: T)

  /** An error returned by a collaborator. Its contents are opaque to the loop:
      the reconciler only ever passes errors on unchanged. */
  datatype Error = Error(message: string)

  /** `time.Duration`: a signed count of nanoseconds. */
  type Duration = int

  const Second: Duration := 1_000_000_000

  /** `ctrl.Request`: the key of the object a reconcile pass is for. */
  datatype Request = Request(name: string, namespace: string)

  /** `ctrl.Result`: whether to requeue the key, and after how long. */
  datatype Result = Result(requeue: bool, requeueAfter: Duration)

  /** The zero value of `ctrl.Result`: no requeue requested. */
  const ZeroResult: Result := Result(false, 0)

  /** `*metav1.Time`. Only whether the instant is Go's zero time matters here. */
  datatype Time = Time(isZero: bool)

  /** The part of an object's metadata the event filter and the queue look at. */
  datatype ObjectMeta = ObjectMeta(name: string, namespace: string, deletionTimestamp: Option<Time>)

  /** `metav1.Time.IsZero` on the (possibly nil) deletion timestamp: a nil
      pointer counts as zero, so an object that was never marked for deletion
      is not terminating. */
  predicate DeletionTimestampIsZero(m: ObjectMeta)
  {
    match m.deletionTimestamp
    case None => true
    case Some(t) => t.isZero
  }

  /** The four kinds of watch notification the controller runtime delivers. */
  datatype Event =
    | CreateEvent(meta: ObjectMeta)
    | UpdateEvent(metaOld: ObjectMeta, metaNew: ObjectMeta)
    | DeleteEvent(meta: ObjectMeta, deleteStateUnknown: bool)
    | GenericEvent(meta: ObjectMeta)
}
