/**
 * The notification context: the queue of snackbar notifications, appended
 * to by `showNotification` and filtered by `clearNotification`, and the
 * hook that refuses to run outside its provider.
 */
module NotificationContext {
  import opened Wrappers
  import opened JsBuiltins

  /** MUI's `AlertColor`. */
  datatype Severity = SuccessSeverity | InfoSeverity | WarningSeverity | ErrorSeverity

  datatype Notification = Notification(id: string, message: string, severity: Severity, duration: int)

  /** The severity a notification gets when the caller gives none. */
  const DefaultSeverity := InfoSeverity
  /** How long, in milliseconds, a notification stays when the caller gives no duration. */
  const DefaultDuration := 4000

  /** The queue without the notifications carrying that id, the others in order. */
  function WithoutId(notifications: seq<Notification>, id: string): (r: seq<Notification>)
    ensures forall k :: 0 <= k < |r| ==> r[k].id != id && r[k] in notifications
    ensures forall k :: 0 <= k < |notifications| && notifications[k].id != id ==> notifications[k] in r
    ensures multiset(r) <= multiset(notifications)
  {
    FilterSubMultiset(notifications, (n: Notification) => n.id != id);
    Filter(notifications, (n: Notification) => n.id != id)
  }

  /** One notification stays exactly when its id differs. */
  lemma WithoutIdSingle(n: Notification, id: string)
    ensures WithoutId([n], id) == if n.id != id then [n] else []
  {
  }

  /** Clearing works part by part, so the remaining notifications keep their order. */
  lemma WithoutIdAppend(front: seq<Notification>, back: seq<Notification>, id: string)
    ensures WithoutId(front + back, id) == WithoutId(front, id) + WithoutId(back, id)
  {
    FilterConcat(front, back, (n: Notification) => n.id != id);
  }

  /** Clearing an id no notification carries leaves the queue as it was. */
  lemma ClearUnknownIdIsNoOp(notifications: seq<Notification>, id: string)
    requires forall k :: 0 <= k < |notifications| ==> notifications[k].id != id
    ensures WithoutId(notifications, id) == notifications
  {
    FilterKeepsAll(notifications, (n: Notification) => n.id != id);
  }

  /** Clearing the same id twice is clearing it once. */
  lemma ClearTwiceIsClearOnce(notifications: seq<Notification>, id: string)
    ensures WithoutId(WithoutId(notifications, id), id) == WithoutId(notifications, id)
  {
    FilterIdempotent(notifications, (n: Notification) => n.id != id);
  }

  /** Clearing the id of the notification just shown removes it and leaves the earlier queue as it would have been cleared. */
  lemma ClearAfterShow(notifications: seq<Notification>, n: Notification)
    ensures WithoutId(notifications + [n], n.id) == WithoutId(notifications, n.id)
  {
    FilterConcat(notifications, [n], (m: Notification) => m.id != n.id);
  }

  /**
   * Ids are millisecond timestamps, so two notifications shown in the same
   * millisecond share one; clearing that id (the first one's timer, or
   * either close button) removes both.
   */
  lemma SameIdClearsBoth(notifications: seq<Notification>, a: Notification, b: Notification)
    requires a.id == b.id
    ensures WithoutId(notifications + [a, b], a.id) == WithoutId(notifications, a.id)
  {
    FilterConcat(notifications, [a, b], (m: Notification) => m.id != a.id);
  }

  /** `useNotification`: the context inside a provider, an error outside one. */
  function UseNotification<C>(context: Option<C>): (r: Result<C, string>)
    ensures r.Success? <==> context.Some?
    ensures r.Success? ==> r.value == context.value
  {
    match context
    case Some(c) => Success(c)
    case None => Failure("useNotification must be used within a NotificationProvider")
  }

  /** The provider's state: the notifications on screen. */
  class NotificationProvider {
    var notifications: seq<Notification>

    constructor ()
      ensures notifications == []
    {
      notifications := [];
    }

    /**
     * `showNotification`: exactly one notification is appended, with severity
     * `info` and duration 4000 ms unless given. `id` is `Date.now().toString()`.
     */
    method ShowNotification(message: string, severity: Option<Severity>, duration: Option<int>, id: string)
      modifies this
      ensures notifications == old(notifications) + [Notification(
                id, message,
                if severity.Some? then severity.value else DefaultSeverity,
                if duration.Some? then duration.value else DefaultDuration)]
    {
      var notification := Notification(
        id, message,
        if severity.Some? then severity.value else DefaultSeverity,
        if duration.Some? then duration.value else DefaultDuration);
      notifications := notifications + [notification];
    }

    /** `clearNotification`: every notification with that id goes, the others stay in order. */
    method ClearNotification(id: string)
      modifies this
      ensures notifications == WithoutId(old(notifications), id)
    {
      notifications := WithoutId(notifications, id);
    }

    /** The timer `showNotification` starts: after the duration, the notification's id is cleared. */
    method DurationElapsed(id: string)
      modifies this
      ensures notifications == WithoutId(old(notifications), id)
    {
      ClearNotification(id);
    }

    /** `handleClose`: the snackbar's close button clears its notification. */
    method HandleClose(id: string)
      modifies this
      ensures notifications == WithoutId(old(notifications), id)
    {
      ClearNotification(id);
    }
  }
}
