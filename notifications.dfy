/** The notification payloads the backend pushes to a user, and the three
    builders of `NotificationsService`. */
module Notifications {

  import opened Seqs
  import opened Text

  datatype NotificationType = ApplicationReceived | ApplicationAccepted | ApplicationRejected

  /** `NotificationData`; the timestamp is a clock reading passed in. */
  datatype NotificationData = NotificationData(
    id: string,
    kind: NotificationType,
    title: string,
    message: string,
    data: map<string, string>,
    timestamp: int)

  /** One notification addressed to one user. */
  datatype Dispatch = Dispatch(recipient: string, notification: NotificationData)

  const ReceivedPrefix := "app_received_"
  const AcceptedPrefix := "app_accepted_"
  const RejectedPrefix := "app_rejected_"

  const ReceivedTitle := "\U{1F3AF} New Application Received!"
  const AcceptedTitle := "\U{1F389} Application Accepted!"
  const RejectedTitle := "\U{1F4CB} Application Update"

  /** A title in double quotes, as the messages show it. */
  function Quoted(title: string): (r: string)
    ensures |r| == |title| + 2 && r[0] == '"' && r[|r| - 1] == '"' && r[1..|r| - 1] == title
  {
    "\"" + title + "\""
  }

  /** `"<prefix><projectId>_<freelancerId>"` */
  function PairId(prefix: string, projectId: string, freelancerId: string): string {
    prefix + projectId + "_" + freelancerId
  }

  /** Reads a pair id back: the project id runs to the first '_' after the
      prefix, the freelancer id is the rest. */
  function DecodePairId(prefix: string, id: string): (r: Option<(string, string)>)
    ensures r.Some? ==> '_' !in r.value.0 && id == PairId(prefix, r.value.0, r.value.1)
  {
    if |prefix| <= |id| && id[..|prefix|] == prefix then
      var rest := id[|prefix|..];
      match IndexOf(rest, '_')
      case None => None
      case Some(i) =>
        assert rest == rest[..i] + "_" + rest[i + 1..];
        assert id == prefix + rest;
        Some((rest[..i], rest[i + 1..]))
    else None
  }

  /** Pair ids round-trip whenever the project id has no '_' (the ids are
      uuids), so distinct (project, freelancer) pairs get distinct ids. */
  lemma PairIdRoundTrip(prefix: string, projectId: string, freelancerId: string)
    requires '_' !in projectId
    ensures DecodePairId(prefix, PairId(prefix, projectId, freelancerId)) == Some((projectId, freelancerId))
  {
    var id := PairId(prefix, projectId, freelancerId);
    assert id[..|prefix|] == prefix;
    var rest := id[|prefix|..];
    assert rest == projectId + "_" + freelancerId;
    IndexOfAfter(projectId, '_', freelancerId);
    assert rest[..|projectId|] == projectId;
    assert rest[|projectId| + 1..] == freelancerId;
  }

  lemma PairIdInjective(prefix: string, p1: string, f1: string, p2: string, f2: string)
    requires '_' !in p1 && '_' !in p2
    requires PairId(prefix, p1, f1) == PairId(prefix, p2, f2)
    ensures p1 == p2 && f1 == f2
  {
    PairIdRoundTrip(prefix, p1, f1);
    PairIdRoundTrip(prefix, p2, f2);
  }

  /** `notifyApplicationReceived`: one notification to the project owner. */
  function NotifyApplicationReceived(projectOwnerId: string, applicantName: string, projectTitle: string,
                                     projectId: string, applicationId: string, timestamp: int): (d: Dispatch)
    ensures d.recipient == projectOwnerId
    ensures d.notification.kind == ApplicationReceived
    ensures d.notification.id == ReceivedPrefix + applicationId
    ensures d.notification.data.Keys == {"projectId", "projectTitle", "applicantName", "applicationId"}
    ensures d.notification.data["projectId"] == projectId && d.notification.data["projectTitle"] == projectTitle
    ensures d.notification.data["applicantName"] == applicantName && d.notification.data["applicationId"] == applicationId
    ensures d.notification.title == ReceivedTitle && d.notification.timestamp == timestamp
    ensures Contains(d.notification.message, applicantName)
    ensures Contains(d.notification.message, Quoted(projectTitle))
  {
    var lead := " has applied to your project ";
    var message := applicantName + lead + Quoted(projectTitle);
    ContainsPiece([], applicantName, lead + Quoted(projectTitle));
    assert [] + applicantName + (lead + Quoted(projectTitle)) == message;
    ContainsPiece(applicantName + lead, Quoted(projectTitle), []);
    assert applicantName + lead + Quoted(projectTitle) + [] == message;
    var n := NotificationData(
      ReceivedPrefix + applicationId,
      ApplicationReceived,
      ReceivedTitle,
      message,
      map["projectId" := projectId, "projectTitle" := projectTitle,
          "applicantName" := applicantName, "applicationId" := applicationId],
      timestamp);
    Dispatch(projectOwnerId, n)
  }

  /** `notifyApplicationAccepted`: one notification to the freelancer. */
  function NotifyApplicationAccepted(freelancerId: string, projectTitle: string, projectId: string,
                                     roleTitle: string, timestamp: int): (d: Dispatch)
    ensures d.recipient == freelancerId
    ensures d.notification.kind == ApplicationAccepted
    ensures d.notification.id == PairId(AcceptedPrefix, projectId, freelancerId)
    ensures d.notification.data.Keys == {"projectId", "projectTitle", "roleTitle"}
    ensures d.notification.data["projectId"] == projectId && d.notification.data["projectTitle"] == projectTitle
    ensures d.notification.data["roleTitle"] == roleTitle
    ensures d.notification.title == AcceptedTitle && d.notification.timestamp == timestamp
    ensures Contains(d.notification.message, Quoted(projectTitle))
    ensures Contains(d.notification.message, roleTitle)
  {
    var lead := "Congratulations! You've been accepted to join ";
    var message := lead + Quoted(projectTitle) + " as " + roleTitle;
    ContainsPiece(lead, Quoted(projectTitle), " as " + roleTitle);
    assert lead + Quoted(projectTitle) + (" as " + roleTitle) == message;
    ContainsPiece(lead + Quoted(projectTitle) + " as ", roleTitle, []);
    assert lead + Quoted(projectTitle) + " as " + roleTitle + [] == message;
    var n := NotificationData(
      PairId(AcceptedPrefix, projectId, freelancerId),
      ApplicationAccepted,
      AcceptedTitle,
      message,
      map["projectId" := projectId, "projectTitle" := projectTitle, "roleTitle" := roleTitle],
      timestamp);
    Dispatch(freelancerId, n)
  }

  /** `notifyApplicationRejected`: one notification to the freelancer,
      carrying only the project. */
  function NotifyApplicationRejected(freelancerId: string, projectTitle: string, projectId: string,
                                     timestamp: int): (d: Dispatch)
    ensures d.recipient == freelancerId
    ensures d.notification.kind == ApplicationRejected
    ensures d.notification.id == PairId(RejectedPrefix, projectId, freelancerId)
    ensures d.notification.data.Keys == {"projectId", "projectTitle"}
    ensures d.notification.data["projectId"] == projectId && d.notification.data["projectTitle"] == projectTitle
    ensures d.notification.title == RejectedTitle && d.notification.timestamp == timestamp
    ensures Contains(d.notification.message, Quoted(projectTitle))
  {
    var lead := "Your application for ";
    var message := lead + Quoted(projectTitle) + " was not selected this time";
    ContainsPiece(lead, Quoted(projectTitle), " was not selected this time");
    var n := NotificationData(
      PairId(RejectedPrefix, projectId, freelancerId),
      ApplicationRejected,
      RejectedTitle,
      message,
      map["projectId" := projectId, "projectTitle" := projectTitle],
      timestamp);
    Dispatch(freelancerId, n)
  }

  /** The three kinds never share an id: their prefixes differ within the
      first seven characters. */
  lemma IdsDistinguishKinds(ownerId: string, applicantName: string, projectTitle: string, projectId: string,
                            applicationId: string, freelancerId: string, roleTitle: string, t1: int, t2: int, t3: int)
    ensures var received := NotifyApplicationReceived(ownerId, applicantName, projectTitle, projectId, applicationId, t1).notification.id;
            var accepted := NotifyApplicationAccepted(freelancerId, projectTitle, projectId, roleTitle, t2).notification.id;
            var rejected := NotifyApplicationRejected(freelancerId, projectTitle, projectId, t3).notification.id;
            received != accepted && received != rejected && accepted != rejected
  {
    var received := NotifyApplicationReceived(ownerId, applicantName, projectTitle, projectId, applicationId, t1).notification.id;
    var accepted := NotifyApplicationAccepted(freelancerId, projectTitle, projectId, roleTitle, t2).notification.id;
    var rejected := NotifyApplicationRejected(freelancerId, projectTitle, projectId, t3).notification.id;
    assert received[4] == 'r' && received[6] == 'c';
    assert accepted[4] == 'a';
    assert rejected[4] == 'r' && rejected[6] == 'j';
  }
}

/** The gateway's registry of connected users: a map from user id to
    socket, in insertion order, updated in place; and the events emitted to
    sockets, in order. */
module NotificationsGateway {

  import opened Seqs
  import opened Notifications

  datatype Socket = Socket(id: string)

  /** One `[userId, socket]` pair of the map. */
  datatype Entry = Entry(userId: string, socket: Socket)

  datatype Payload = JoinedAck | Notice(notification: NotificationData)

  /** `socket.emit(event, payload)`, recorded by socket id. */
  datatype Emitted = Emitted(socketId: string, payload: Payload)

  function UserOf(e: Entry): string { e.userId }

  /** The tests the map's iteration applies to an entry. */
  function KeyIs(userId: string): Entry -> bool {
    (e: Entry) => e.userId == userId
  }

  function SocketIs(socketId: string): Entry -> bool {
    (e: Entry) => e.socket.id == socketId
  }

  /** `userSockets.get(userId)` */
  function Lookup(entries: seq<Entry>, userId: string): (r: Option<Socket>)
    ensures r.Some? <==> exists e :: e in entries && e.userId == userId
    ensures r.Some? ==> Entry(userId, r.value) in entries
  {
    match FindFirst(entries, KeyIs(userId))
    case Some(i) => Some(entries[i].socket)
    case None => None
  }

  lemma LookupUnique(entries: seq<Entry>, e: Entry)
    requires UniqueBy(entries, UserOf) && e in entries
    ensures Lookup(entries, e.userId) == Some(e.socket)
  {
    var i := FindFirst(entries, KeyIs(e.userId)).value;
    var j :| 0 <= j < |entries| && entries[j] == e;
    assert i == j;
  }

  /** `userSockets.set(userId, socket)`: an existing key keeps its place and
      takes the new socket; a new key goes last. */
  function Put(entries: seq<Entry>, userId: string, socket: Socket): (r: seq<Entry>)
    ensures Lookup(r, userId) == Some(socket)
    ensures forall u :: u != userId ==> Lookup(r, u) == Lookup(entries, u)
    ensures |r| == |entries| + (if Lookup(entries, userId).Some? then 0 else 1)
    ensures forall k :: 0 <= k < |entries| ==> r[k].userId == entries[k].userId
  {
    match FindFirst(entries, KeyIs(userId))
    case Some(i) =>
      var r := entries[i := Entry(userId, socket)];
      FindFirstIs(r, KeyIs(userId), i);
      PutKeepsOthers(entries, i, userId, socket);
      r
    case None =>
      var r := entries + [Entry(userId, socket)];
      FindFirstIs(r, KeyIs(userId), |entries|);
      forall u | u != userId ensures Lookup(r, u) == Lookup(entries, u) {
        FindFirstSnoc(entries, Entry(userId, socket), KeyIs(u));
      }
      r
  }

  lemma PutKeepsOthers(entries: seq<Entry>, i: nat, userId: string, socket: Socket)
    requires i < |entries| && entries[i].userId == userId
    ensures forall u :: u != userId ==> Lookup(entries[i := Entry(userId, socket)], u) == Lookup(entries, u)
  {
    var r := entries[i := Entry(userId, socket)];
    forall u | u != userId
      ensures Lookup(r, u) == Lookup(entries, u)
    {
      FindFirstAgrees(r, entries, KeyIs(u));
    }
  }

  lemma PutKeepsKeysUnique(entries: seq<Entry>, userId: string, socket: Socket)
    requires UniqueBy(entries, UserOf)
    ensures UniqueBy(Put(entries, userId, socket), UserOf)
  {
    match FindFirst(entries, KeyIs(userId))
    case Some(i) =>
      UniqueByUpdate(entries, i, Entry(userId, socket), UserOf);
    case None =>
      UniqueByAppend(entries, Entry(userId, socket), UserOf);
  }

  /** The first entry, in iteration order, whose socket is `socketId`. */
  function FirstWithSocket(entries: seq<Entry>, socketId: string): (r: Option<nat>)
    ensures r.Some? ==> r.value < |entries| && entries[r.value].socket.id == socketId
    ensures r.Some? ==> forall j :: 0 <= j < r.value ==> entries[j].socket.id != socketId
    ensures r.None? <==> forall e :: e in entries ==> e.socket.id != socketId
  {
    FindFirst(entries, SocketIs(socketId))
  }

  /** The registry after `handleDisconnect`: the first entry holding the
      socket goes, nothing else changes. */
  function WithoutSocket(entries: seq<Entry>, socketId: string): (r: seq<Entry>)
    ensures FirstWithSocket(entries, socketId).None? ==> r == entries
    ensures FirstWithSocket(entries, socketId).Some? ==> |r| == |entries| - 1
    ensures multiset(r) <= multiset(entries)
  {
    match FirstWithSocket(entries, socketId)
    case None => entries
    case Some(i) => RemoveAt(entries, i)
  }

  /** Disconnecting drops exactly the user that held the socket first; every
      other user keeps their socket, and the keys stay unique. */
  lemma {:induction false} DisconnectDropsOneUser(entries: seq<Entry>, socketId: string, u: string)
    requires UniqueBy(entries, UserOf)
    ensures UniqueBy(WithoutSocket(entries, socketId), UserOf)
    ensures match FirstWithSocket(entries, socketId)
            case None => Lookup(WithoutSocket(entries, socketId), u) == Lookup(entries, u)
            case Some(i) =>
              && (u == entries[i].userId ==> Lookup(WithoutSocket(entries, socketId), u).None?)
              && (u != entries[i].userId ==> Lookup(WithoutSocket(entries, socketId), u) == Lookup(entries, u))
  {
    match FirstWithSocket(entries, socketId)
    case None =>
    case Some(i) =>
      var r := RemoveAt(entries, i);
      UniqueByRemove(entries, i, UserOf);
      if u != entries[i].userId {
        if Lookup(entries, u).Some? {
          var e := Entry(u, Lookup(entries, u).value);
          assert e in r;
          LookupUnique(r, e);
        }
      }
  }

  /** When one socket is registered under two users, a disconnect removes
      only the first registration: the later one stays behind. */
  lemma DisconnectLeavesLaterRegistration(entries: seq<Entry>, i: nat, j: nat)
    requires UniqueBy(entries, UserOf)
    requires i < j < |entries| && entries[i].socket == entries[j].socket
    ensures Lookup(WithoutSocket(entries, entries[i].socket.id), entries[j].userId) == Some(entries[j].socket)
  {
    var s := entries[i].socket.id;
    var first := FirstWithSocket(entries, s).value;
    assert first <= i;
    UniqueByRemove(entries, first, UserOf);
    var r := RemoveAt(entries, first);
    assert r[j - 1] == entries[j];
    LookupUnique(r, entries[j]);
  }

  /** The emits of `sendNotificationToUser`: one to the user's socket if the
      user is registered, none otherwise. */
  function Delivery(entries: seq<Entry>, userId: string, n: NotificationData): (r: seq<Emitted>)
    ensures |r| <= 1
    ensures |r| == 1 <==> Lookup(entries, userId).Some?
  {
    match Lookup(entries, userId)
    case Some(socket) => [Emitted(socket.id, Notice(n))]
    case None => []
  }

  /** The emits of `sendNotificationToUsers`: one attempt per listed user,
      in list order. */
  function Deliveries(entries: seq<Entry>, userIds: seq<string>, n: NotificationData): seq<Emitted>
    decreases |userIds|
  {
    if userIds == [] then []
    else Deliveries(entries, userIds[..|userIds| - 1], n) + Delivery(entries, userIds[|userIds| - 1], n)
  }

  /** At most one emit per listed user. */
  lemma {:induction false} DeliveriesAtMostOneEach(entries: seq<Entry>, userIds: seq<string>, n: NotificationData)
    ensures |Deliveries(entries, userIds, n)| <= |userIds|
    decreases |userIds|
  {
    if userIds != [] {
      DeliveriesAtMostOneEach(entries, userIds[..|userIds| - 1], n);
    }
  }

  /** When every listed user is registered: one emit per listed user, to
      that user's socket, in list order. */
  lemma {:induction false} DeliveriesInOrder(entries: seq<Entry>, userIds: seq<string>, n: NotificationData)
    requires forall k :: 0 <= k < |userIds| ==> Lookup(entries, userIds[k]).Some?
    ensures |Deliveries(entries, userIds, n)| == |userIds|
    ensures forall k :: 0 <= k < |userIds| ==>
              Deliveries(entries, userIds, n)[k] == Emitted(Lookup(entries, userIds[k]).value.id, Notice(n))
    decreases |userIds|
  {
    if userIds != [] {
      var init := userIds[..|userIds| - 1];
      var last := userIds[|userIds| - 1];
      DeliveriesInOrder(entries, init, n);
      var a := Deliveries(entries, init, n);
      var b := Delivery(entries, last, n);
      assert b == [Emitted(Lookup(entries, last).value.id, Notice(n))];
      forall k | 0 <= k < |userIds|
        ensures (a + b)[k] == Emitted(Lookup(entries, userIds[k]).value.id, Notice(n))
      {
        if k < |init| {
          assert userIds[k] == init[k];
        }
      }
    }
  }

  class NotificationsGateway {
    var userSockets: seq<Entry>
    var outbox: seq<Emitted>

    ghost predicate Valid()
      reads this
    {
      UniqueBy(userSockets, UserOf)
    }

    constructor ()
      ensures Valid() && userSockets == [] && outbox == []
    {
      userSockets := [];
      outbox := [];
    }

    /** `handleJoinNotifications`: register the client for the user,
        replacing any earlier socket, and acknowledge. */
    method HandleJoinNotifications(userId: string, client: Socket)
      requires Valid()
      modifies this
      ensures Valid()
      ensures userSockets == Put(old(userSockets), userId, client)
      ensures outbox == old(outbox) + [Emitted(client.id, JoinedAck)]
    {
      PutKeepsKeysUnique(userSockets, userId, client);
      userSockets := Put(userSockets, userId, client);
      outbox := outbox + [Emitted(client.id, JoinedAck)];
    }

    /** `handleDisconnect`: walk the entries in order and delete the first
        one holding the client's socket. */
    method HandleDisconnect(client: Socket)
      requires Valid()
      modifies this
      ensures Valid()
      ensures userSockets == WithoutSocket(old(userSockets), client.id)
      ensures outbox == old(outbox)
    {
      DisconnectDropsOneUser(userSockets, client.id, "");
      var i := 0;
      while i < |userSockets|
        invariant 0 <= i <= |userSockets|
        invariant userSockets == old(userSockets)
        invariant forall j :: 0 <= j < i ==> userSockets[j].socket.id != client.id
      {
        if userSockets[i].socket.id == client.id {
          assert FirstWithSocket(userSockets, client.id) == Some(i);
          userSockets := RemoveAt(userSockets, i);
          break;
        }
        i := i + 1;
      }
    }

    /** `sendNotificationToUser`: emit to the user's socket if registered;
        report whether it was. */
    method SendNotificationToUser(userId: string, n: NotificationData) returns (sent: bool)
      modifies this
      ensures sent <==> Lookup(userSockets, userId).Some?
      ensures userSockets == old(userSockets)
      ensures outbox == old(outbox) + Delivery(userSockets, userId, n)
    {
      var socket := Lookup(userSockets, userId);
      if socket.Some? {
        outbox := outbox + [Emitted(socket.value.id, Notice(n))];
        return true;
      }
      return false;
    }

    /** `sendNotificationToUsers`: attempt each listed user in turn. */
    method SendNotificationToUsers(userIds: seq<string>, n: NotificationData)
      modifies this
      ensures userSockets == old(userSockets)
      ensures outbox == old(outbox) + Deliveries(userSockets, userIds, n)
    {
      for k := 0 to |userIds|
        invariant userSockets == old(userSockets)
        invariant outbox == old(outbox) + Deliveries(userSockets, userIds[..k], n)
      {
        assert userIds[..k + 1][..k] == userIds[..k];
        var _ := SendNotificationToUser(userIds[k], n);
      }
      assert userIds[..|userIds|] == userIds;
    }
  }
}

/** `NotificationsService`: each builder's notification handed to the
    gateway for its one recipient. */
module NotificationsService {

  import opened Notifications
  import opened NotificationsGateway

  class NotificationsService {
    const gateway: NotificationsGateway

    constructor (gateway: NotificationsGateway)
      ensures this.gateway == gateway
    {
      this.gateway := gateway;
    }

    method NotifyApplicationReceived(projectOwnerId: string, applicantName: string, projectTitle: string,
                                     projectId: string, applicationId: string, timestamp: int)
      modifies gateway
      ensures gateway.userSockets == old(gateway.userSockets)
      ensures var d := Notifications.NotifyApplicationReceived(projectOwnerId, applicantName, projectTitle, projectId, applicationId, timestamp);
              gateway.outbox == old(gateway.outbox) + Delivery(gateway.userSockets, d.recipient, d.notification)
    {
      var d := Notifications.NotifyApplicationReceived(projectOwnerId, applicantName, projectTitle, projectId, applicationId, timestamp);
      var _ := gateway.SendNotificationToUser(d.recipient, d.notification);
    }

    method NotifyApplicationAccepted(freelancerId: string, projectTitle: string, projectId: string,
                                     roleTitle: string, timestamp: int)
      modifies gateway
      ensures gateway.userSockets == old(gateway.userSockets)
      ensures var d := Notifications.NotifyApplicationAccepted(freelancerId, projectTitle, projectId, roleTitle, timestamp);
              gateway.outbox == old(gateway.outbox) + Delivery(gateway.userSockets, d.recipient, d.notification)
    {
      var d := Notifications.NotifyApplicationAccepted(freelancerId, projectTitle, projectId, roleTitle, timestamp);
      var _ := gateway.SendNotificationToUser(d.recipient, d.notification);
    }

    method NotifyApplicationRejected(freelancerId: string, projectTitle: string, projectId: string, timestamp: int)
      modifies gateway
      ensures gateway.userSockets == old(gateway.userSockets)
      ensures var d := Notifications.NotifyApplicationRejected(freelancerId, projectTitle, projectId, timestamp);
              gateway.outbox == old(gateway.outbox) + Delivery(gateway.userSockets, d.recipient, d.notification)
    {
      var d := Notifications.NotifyApplicationRejected(freelancerId, projectTitle, projectId, timestamp);
      var _ := gateway.SendNotificationToUser(d.recipient, d.notification);
    }
  }
}
