/** What both form controllers share: the listener list, the trace of calls
    a save makes into the service and the listeners, and its outcome. */
module DataChange {

  /** A subscribed `DataChangeListener`. The same listener object may be
      subscribed more than once, so it is identified, not deduplicated. */
  datatype Listener = Listener(id: nat)

  /** A non-null service object (`SellerService`, `DepartmentService`). */
  datatype ServiceRef = ServiceRef(id: nat)

  /** One externally visible call made during a save: the service's
      `saveOrUpdate(entity)` or a listener's `onDataChanged()`. */
  datatype Event<E> = SaveOrUpdate(entity: E) | DataChanged(listener: Listener)

  /** What the service's `saveOrUpdate` did: returned, or threw `DbException`. */
  datatype DbOutcome = Saved | DbException(message: string)

  /** How `onButtonSaveAction` ended: the stage was closed, the error labels
      were filled in, an error alert was shown, or `IllegalStateException`
      escaped to the caller. */
  datatype SaveOutcome =
    | StageClosed
    | ErrorLabelsShown
    | ErrorAlertShown(message: string)
    | IllegalState(message: string)

  /** The controller after a save, the calls made in order, and the outcome. */
  datatype Step<C, E> = Step(controller: C, trace: seq<Event<E>>, outcome: SaveOutcome)

  /** `notifyDataChangeListeners`: one `onDataChanged()` call per entry of the
      list, walked front to back. */
  function Notifications<E>(listeners: seq<Listener>): (r: seq<Event<E>>)
    ensures |r| == |listeners|
    ensures forall i :: 0 <= i < |listeners| ==> r[i] == DataChanged(listeners[i])
  {
    if listeners == [] then []
    else [DataChanged(listeners[0])] + Notifications(listeners[1..])
  }

  /** How many times `l` occurs in a listener list. */
  function Occurrences(listeners: seq<Listener>, l: Listener): nat {
    if listeners == [] then 0
    else (if listeners[0] == l then 1 else 0) + Occurrences(listeners[1..], l)
  }

  /** How many `saveOrUpdate` calls a trace holds. */
  function SaveCalls<E>(trace: seq<Event<E>>): nat {
    if trace == [] then 0
    else (if trace[0].SaveOrUpdate? then 1 else 0) + SaveCalls(trace[1..])
  }

  /** How many times a trace notifies `l`. */
  function NotifyCount<E>(trace: seq<Event<E>>, l: Listener): nat {
    if trace == [] then 0
    else (if trace[0] == DataChanged(l) then 1 else 0) + NotifyCount(trace[1..], l)
  }

  /** Notifying makes no service call, and notifies each listener exactly as
      many times as it was subscribed. */
  lemma {:induction false} NotificationsCount<E>(listeners: seq<Listener>, l: Listener)
    ensures SaveCalls(Notifications<E>(listeners)) == 0
    ensures NotifyCount(Notifications<E>(listeners), l) == Occurrences(listeners, l)
  {
    if listeners != [] {
      var r := Notifications<E>(listeners);
      assert r[1..] == Notifications<E>(listeners[1..]);
      NotificationsCount<E>(listeners[1..], l);
    }
  }

  /** A save that reached the service and then notified `listeners` called
      the service once and notified each listener once per subscription. */
  lemma SaveThenNotifyCounts<E>(entity: E, listeners: seq<Listener>, l: Listener)
    ensures SaveCalls([SaveOrUpdate(entity)] + Notifications<E>(listeners)) == 1
    ensures NotifyCount([SaveOrUpdate(entity)] + Notifications<E>(listeners), l) == Occurrences(listeners, l)
  {
    var t := [SaveOrUpdate(entity)] + Notifications<E>(listeners);
    assert t[1..] == Notifications<E>(listeners);
    NotificationsCount<E>(listeners, l);
  }

  /** Counting occurrences distributes over appending one listener. */
  lemma {:induction false} OccurrencesAppend(listeners: seq<Listener>, x: Listener, l: Listener)
    ensures Occurrences(listeners + [x], l) == Occurrences(listeners, l) + (if x == l then 1 else 0)
  {
    if listeners != [] {
      assert (listeners + [x])[1..] == listeners[1..] + [x];
      OccurrencesAppend(listeners[1..], x, l);
    }
  }

  /** Appending a listener to the list (what `subscribeDataChangeListener`
      does) makes the next notification round reach it last, after every
      earlier subscriber in its original order, one more time than before. */
  lemma SubscribedListenerNotifiedLast<E>(listeners: seq<Listener>, x: Listener, l: Listener)
    ensures Notifications<E>(listeners + [x]) == Notifications<E>(listeners) + [DataChanged(x)]
    ensures NotifyCount(Notifications<E>(listeners + [x]), l)
         == NotifyCount(Notifications<E>(listeners), l) + (if x == l then 1 else 0)
  {
    NotificationsCount<E>(listeners + [x], l);
    NotificationsCount<E>(listeners, l);
    OccurrencesAppend(listeners, x, l);
  }
}
