/** The client's notification state: the received list (newest first), the
    unread counter and the set of ids marked as read. */
module NotificationStore {

  import opened Notifications

  /** The ids of a notification list, as `notifications.map(n => n.id)`
      collected into a set. */
  function IdsOf(ns: seq<NotificationData>): (r: set<string>)
    ensures forall id :: id in r <==> exists k :: 0 <= k < |ns| && ns[k].id == id
    ensures |r| <= |ns|
  {
    if ns == [] then {}
    else
      var rest := IdsOf(ns[1..]);
      assert forall k :: 1 <= k < |ns| ==> ns[k] == ns[1..][k - 1];
      {ns[0].id} + rest
  }

  /** `Math.max(0, count - 1)` */
  function Decrement(count: int): (r: int)
    ensures r >= 0
    ensures count >= 1 ==> r == count - 1
    ensures count < 1 ==> r == 0
  {
    if count - 1 > 0 then count - 1 else 0
  }

  class NotificationStore {
    var notifications: seq<NotificationData>
    var unreadCount: int
    var readNotifications: set<string>
    var isConnected: bool

    /** The counter never goes negative and never exceeds the list. */
    ghost predicate Valid()
      reads this
    {
      0 <= unreadCount <= |notifications|
    }

    constructor ()
      ensures Valid()
      ensures notifications == [] && unreadCount == 0 && readNotifications == {} && !isConnected
    {
      notifications := [];
      unreadCount := 0;
      readNotifications := {};
      isConnected := false;
    }

    method OnConnect()
      modifies this
      ensures isConnected
      ensures notifications == old(notifications) && unreadCount == old(unreadCount)
      ensures readNotifications == old(readNotifications)
    {
      isConnected := true;
    }

    method OnDisconnect()
      modifies this
      ensures !isConnected
      ensures notifications == old(notifications) && unreadCount == old(unreadCount)
      ensures readNotifications == old(readNotifications)
    {
      isConnected := false;
    }

    /** An incoming notification goes first and counts as unread. */
    method OnNotification(n: NotificationData)
      requires Valid()
      modifies this
      ensures Valid()
      ensures notifications == [n] + old(notifications)
      ensures unreadCount == old(unreadCount) + 1
      ensures readNotifications == old(readNotifications) && isConnected == old(isConnected)
    {
      notifications := [n] + notifications;
      unreadCount := unreadCount + 1;
    }

    /** `markAsRead`: the id joins the read set and the counter drops by
        one, floored at zero, whether or not the id was already read. */
    method MarkAsRead(notificationId: string)
      requires Valid()
      modifies this
      ensures Valid()
      ensures readNotifications == old(readNotifications) + {notificationId}
      ensures unreadCount == Decrement(old(unreadCount))
      ensures notifications == old(notifications) && isConnected == old(isConnected)
    {
      readNotifications := readNotifications + {notificationId};
      unreadCount := Decrement(unreadCount);
    }

    /** `markAllAsRead`: exactly the listed ids are read; nothing is unread. */
    method MarkAllAsRead()
      requires Valid()
      modifies this
      ensures Valid()
      ensures readNotifications == IdsOf(notifications)
      ensures unreadCount == 0
      ensures notifications == old(notifications) && isConnected == old(isConnected)
    {
      readNotifications := IdsOf(notifications);
      unreadCount := 0;
    }

    /** `clearNotifications`: everything is forgotten. */
    method ClearNotifications()
      requires Valid()
      modifies this
      ensures Valid()
      ensures notifications == [] && readNotifications == {} && unreadCount == 0
      ensures isConnected == old(isConnected)
    {
      notifications := [];
      readNotifications := {};
      unreadCount := 0;
    }
  }
}
