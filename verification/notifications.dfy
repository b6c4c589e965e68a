/** The notification queue shared by every page: notifications are
    appended at the end and removed by id. The random id of a new
    notification is a parameter. */
module Notifications {
  import opened Basics
  import opened Lists

  datatype NotificationType = SuccessType | ErrorType | InfoType | WarningType

  datatype Notification = Notification(
    id: string,
    kind: NotificationType,
    title: string,
    message: string,
    duration: Option<int>)

  /** The queue without any notification carrying `id`. */
  function WithoutId(ns: seq<Notification>, id: string): (r: seq<Notification>)
    ensures forall i :: 0 <= i < |r| ==> r[i].id != id
    ensures forall i :: 0 <= i < |ns| && ns[i].id != id ==> ns[i] in r
    ensures Subsequence(r, ns)
    ensures forall n :: multiset(r)[n] == if n.id != id then multiset(ns)[n] else 0
  {
    Filter(ns, (n: Notification) => n.id != id)
  }

  /** Removing an id that is not queued changes nothing. */
  lemma RemoveAbsentId(ns: seq<Notification>, id: string)
    requires forall i :: 0 <= i < |ns| ==> ns[i].id != id
    ensures WithoutId(ns, id) == ns
  {
    FilterKeepsAll(ns, (n: Notification) => n.id != id);
  }

  /** Adding a notification under a fresh id and then removing that id
      restores the queue. */
  lemma AddThenRemove(ns: seq<Notification>, n: Notification)
    requires forall i :: 0 <= i < |ns| ==> ns[i].id != n.id
    ensures WithoutId(ns + [n], n.id) == ns
  {
    var p := (m: Notification) => m.id != n.id;
    FilterSnoc(ns, n, p);
    FilterKeepsAll(ns, p);
  }

  class NotificationCenter {
    var notifications: seq<Notification>

    constructor ()
      ensures notifications == []
    {
      notifications := [];
    }

    /** `addNotification`: one notification, with the given fields and the
        new id, joins the end of the queue; the others stay, in order. */
    method AddNotification(kind: NotificationType, title: string, message: string, duration: Option<int>, id: string)
      modifies this
      ensures notifications == old(notifications) + [Notification(id, kind, title, message, duration)]
    {
      notifications := notifications + [Notification(id, kind, title, message, duration)];
    }

    /** `removeNotification`: every notification with that id leaves the
        queue, the others stay, in order. */
    method RemoveNotification(id: string)
      modifies this
      ensures notifications == WithoutId(old(notifications), id)
    {
      notifications := WithoutId(notifications, id);
    }

    method Success(title: string, message: string, duration: Option<int>, id: string)
      modifies this
      ensures notifications == old(notifications) + [Notification(id, SuccessType, title, message, duration)]
    {
      AddNotification(SuccessType, title, message, duration, id);
    }

    method Error(title: string, message: string, duration: Option<int>, id: string)
      modifies this
      ensures notifications == old(notifications) + [Notification(id, ErrorType, title, message, duration)]
    {
      AddNotification(ErrorType, title, message, duration, id);
    }

    method Info(title: string, message: string, duration: Option<int>, id: string)
      modifies this
      ensures notifications == old(notifications) + [Notification(id, InfoType, title, message, duration)]
    {
      AddNotification(InfoType, title, message, duration, id);
    }

    method Warning(title: string, message: string, duration: Option<int>, id: string)
      modifies this
      ensures notifications == old(notifications) + [Notification(id, WarningType, title, message, duration)]
    {
      AddNotification(WarningType, title, message, duration, id);
    }
  }
}
