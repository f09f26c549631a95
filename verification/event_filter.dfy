/*******************************************************************************
 *  The predicate that decides which KogitoRuntime watch events start a
 *  reconcile pass, and its application to a stream of events.
 *******************************************************************************/

module EventFilter {
  import opened Kube

  /** The controller's `predicate.Funcs`: delete events are never admitted (the
      finalizer handles removal), an update is admitted exactly when the new
      object's deletion timestamp is nil or zero, and create and generic events,
      whose functions are left unset, are admitted. */
  function Admit(e: Event): (admitted: bool)
    ensures e.DeleteEvent? ==> !admitted
    ensures e.UpdateEvent? ==> (admitted <==> DeletionTimestampIsZero(e.metaNew))
    ensures e.CreateEvent? || e.GenericEvent? ==> admitted
  {
    match e
    case DeleteEvent(_, _) => false
    case UpdateEvent(_, metaNew) => DeletionTimestampIsZero(metaNew)
    case CreateEvent(_) => true
    case GenericEvent(_) => true
  }

  /** Whether an update is admitted does not depend on the old object. */
  lemma UpdateIgnoresOldObject(old1: ObjectMeta, old2: ObjectMeta, metaNew: ObjectMeta)
    ensures Admit(UpdateEvent(old1, metaNew)) == Admit(UpdateEvent(old2, metaNew))
  {
  }

  /** The events of a stream that the predicate admits, in stream order. */
  function Admitted(events: seq<Event>): (r: seq<Event>)
    ensures |r| <= |events|
    ensures forall i :: 0 <= i < |r| ==> Admit(r[i])
  {
    if |events| == 0 then []
    else (if Admit(events[0]) then [events[0]] else []) + Admitted(events[1..])
  }

  /** The predicate judges each event on its own: filtering a stream piecewise
      and concatenating gives the filtered stream. */
  lemma {:induction false} AdmittedAppend(a: seq<Event>, b: seq<Event>)
    ensures Admitted(a + b) == Admitted(a) + Admitted(b)
    decreases |a|
  {
    if |a| == 0 {
      assert a + b == b;
    } else {
      var head := if Admit(a[0]) then [a[0]] else [];
      assert (a + b)[0] == a[0];
      assert (a + b)[1..] == a[1..] + b;
      AdmittedAppend(a[1..], b);
      calc {
        Admitted(a + b);
        head + Admitted(a[1..] + b);
        head + (Admitted(a[1..]) + Admitted(b));
        (head + Admitted(a[1..])) + Admitted(b);
      }
    }
  }

  /** An event survives the filter exactly when it is in the stream and admitted;
      in particular no delete event and no update of a terminating object does. */
  lemma {:induction false} AdmittedMembers(events: seq<Event>, e: Event)
    ensures e in Admitted(events) <==> e in events && Admit(e)
    decreases |events|
  {
    if |events| > 0 {
      AdmittedMembers(events[1..], e);
      assert events == [events[0]] + events[1..];
    }
  }

  /** Run the predicate over a stream of events, keeping the admitted ones. */
  method FilterEvents(events: seq<Event>) returns (admitted: seq<Event>)
    ensures admitted == Admitted(events)
    ensures forall e :: e in admitted <==> e in events && Admit(e)
  {
    admitted := [];
    var k := 0;
    while k < |events|
      invariant 0 <= k <= |events|
      invariant admitted == Admitted(events[..k])
      invariant forall e :: e in admitted <==> e in events[..k] && Admit(e)
    {
      AdmittedAppend(events[..k], [events[k]]);
      assert events[..k + 1] == events[..k] + [events[k]];
      if Admit(events[k]) {
        admitted := admitted + [events[k]];
      }
      k := k + 1;
    }
    assert events[..k] == events;
  }
}
