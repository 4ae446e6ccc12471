/**
 * `NotificationService` (Config/services/notification_service.py) over the
 * `order_notifications` table, kept in insertion order, that is in
 * increasing id. The clock is a parameter. The `mark_notification_read`
 * route (Config/blueprints/tracking/routes.py) that guards `mark_as_read`
 * is modelled here too.
 */
module NotificationService {
  import opened Common
  import opened Text
  import opened MapsConfig
  import opened TrackingRoutes

  /** An `OrderNotification` row; `kind` is its `type` column. */
  datatype Notification = Notification(
    id: int, userId: int, orderId: int, message: string, kind: string, isRead: bool, createdAt: int)

  /** The table and the id the next row receives. */
  datatype Inbox = Inbox(notes: seq<Notification>, nextId: int)

  /** Ids increase along the table and stay below the next id. */
  predicate Valid(b: Inbox) {
    && (forall i, j :: 0 <= i < j < |b.notes| ==> b.notes[i].id < b.notes[j].id)
    && (forall i :: 0 <= i < |b.notes| ==> b.notes[i].id < b.nextId)
  }

  /** Rows were created at non-decreasing instants. */
  predicate Chronological(s: seq<Notification>) {
    forall i, j :: 0 <= i < j < |s| ==> s[i].createdAt <= s[j].createdAt
  }

  /** The message stored for a notification: the template, or a generic line when the template is unknown. */
  function MessageFor(kind: string, orderId: int, minutes: Option<int>): (m: Option<string>)
    ensures m.None? <==> NotificationMessage(kind, orderId, minutes).None?
    ensures m.Some? ==> m.value != ""
  {
    match NotificationMessage(kind, orderId, minutes)
    case None => None
    case Some(text) => Some(if text == "" then GenericMessage(orderId) else text)
  }

  /** Whatever the template, a stored message names the order as "#" and its number. */
  lemma MessageForNamesOrder(kind: string, orderId: int, minutes: Option<int>)
    requires MessageFor(kind, orderId, minutes).Some?
    ensures exists i: nat :: OccursAt("#" + IntToString(orderId), MessageFor(kind, orderId, minutes).value, i)
  {
    var m := MessageFor(kind, orderId, minutes).value;
    var tag := "#" + IntToString(orderId);
    if kind in TemplateKeys {
      MessageNamesOrder(kind, orderId, minutes);
      assert m == NotificationMessage(kind, orderId, minutes).value;
      assert OccursAt(tag, m, |TemplatePrefix(kind)|);
    } else {
      GenericNamesOrder(orderId);
      assert m == GenericMessage(orderId);
      assert OccursAt(tag, m, |GenericLead|);
    }
  }

  const GenericLead := "Actualización del pedido "

  /** The line stored when the template is unknown. */
  function GenericMessage(orderId: int): string {
    GenericLead + ("#" + IntToString(orderId))
  }

  lemma GenericNamesOrder(orderId: int)
    ensures OccursAt("#" + IntToString(orderId), GenericMessage(orderId), |GenericLead|)
  {
    OccursBetween(GenericLead, "#" + IntToString(orderId), "");
    assert GenericLead + ("#" + IntToString(orderId)) + "" == GenericMessage(orderId);
  }

  /**
   * `create_notification` as written: the row is built with the keyword
   * `notification_type`, which is not a column of `OrderNotification`, so
   * the constructor raises, the handler rolls back and answers None.
   */
  function CreateNotificationAsWritten(b: Inbox, userId: int, orderId: int, kind: string,
                                       minutes: Option<int>, now: int): (r: (Option<Notification>, Inbox))
    ensures r.0.None? && r.1 == b
  {
    (None, b)
  }

  /**
   * `create_notification` with the kind stored in the `type` column: a new
   * unread row at the end, with the template's message or the generic one;
   * None, and no change, when the template cannot be filled.
   */
  function CreateNotification(b: Inbox, userId: int, orderId: int, kind: string,
                              minutes: Option<int>, now: int): (r: (Option<Notification>, Inbox))
    ensures r.0.None? <==> kind == "near_delivery" && minutes.None?
    ensures r.0.None? ==> r.1 == b
    ensures r.0.Some? ==>
              && r.1 == Inbox(b.notes + [r.0.value], b.nextId + 1)
              && r.0.value.id == b.nextId && r.0.value.userId == userId && r.0.value.orderId == orderId
              && r.0.value.kind == kind && !r.0.value.isRead && r.0.value.createdAt == now
              && r.0.value.message != ""
  {
    match MessageFor(kind, orderId, minutes)
    case None => (None, b)
    case Some(m) =>
      var n := Notification(b.nextId, userId, orderId, m, kind, false, now);
      (Some(n), Inbox(b.notes + [n], b.nextId + 1))
  }

  /** The template key and fill-in each `notify_*` helper passes for a notice of the tracking routes. */
  function NoticeKind(n: Notice): string {
    match n
    case OutForDelivery(_, _) => "out_for_delivery"
    case NearDeliveryNotice(_, _, _) => "near_delivery"
    case DeliveredNotice(_, _) => "delivered"
  }

  function NoticeMinutes(n: Notice): Option<int> {
    if n.NearDeliveryNotice? then Some(n.minutes) else None
  }

  /**
   * Every notice of the tracking routes reaches its customer once created
   * with the `type` column: one unread row naming the order. As written,
   * none is ever stored.
   */
  lemma NoticesReachCustomer(b: Inbox, n: Notice, now: int)
    ensures CreateNotificationAsWritten(b, n.userId, n.orderId, NoticeKind(n), NoticeMinutes(n), now).1 == b
    ensures var (c, b') := CreateNotification(b, n.userId, n.orderId, NoticeKind(n), NoticeMinutes(n), now);
      && c.Some? && c.value.userId == n.userId && !c.value.isRead
      && UnreadCount(b'.notes, n.userId) == UnreadCount(b.notes, n.userId) + 1
      && exists i: nat :: OccursAt("#" + IntToString(n.orderId), c.value.message, i)
  {
    var (c, b') := CreateNotification(b, n.userId, n.orderId, NoticeKind(n), NoticeMinutes(n), now);
    MessageForNamesOrder(NoticeKind(n), n.orderId, NoticeMinutes(n));
    assert b'.notes[..|b'.notes| - 1] == b.notes;
  }

  /** Creating keeps the table valid, and chronological when the clock does not run back. */
  lemma CreateKeepsValid(b: Inbox, userId: int, orderId: int, kind: string, minutes: Option<int>, now: int)
    requires Valid(b)
    requires Chronological(b.notes) && (b.notes != [] ==> b.notes[|b.notes| - 1].createdAt <= now)
    ensures Valid(CreateNotification(b, userId, orderId, kind, minutes, now).1)
    ensures Chronological(CreateNotification(b, userId, orderId, kind, minutes, now).1.notes)
  {
    var r := CreateNotification(b, userId, orderId, kind, minutes, now);
    if r.0.Some? {
      AppendKeepsValid(b.notes, r.0.value, b.nextId, now);
    }
  }

  /** Appending a row that takes the next id, created no earlier than the last row, keeps both invariants. */
  lemma AppendKeepsValid(s: seq<Notification>, n: Notification, nextId: int, now: int)
    requires Valid(Inbox(s, nextId)) && n.id == nextId && n.createdAt == now
    ensures Valid(Inbox(s + [n], nextId + 1))
    ensures Chronological(s) && (s != [] ==> s[|s| - 1].createdAt <= now) ==> Chronological(s + [n])
  {
    var t := s + [n];
    assert forall i :: 0 <= i < |s| ==> t[i] == s[i];
    assert t[|s|] == n;
    if Chronological(s) && (s != [] ==> s[|s| - 1].createdAt <= now) {
      forall i, j | 0 <= i < j < |t|
        ensures t[i].createdAt <= t[j].createdAt
      {
        if j == |s| && i < |s| - 1 {
          assert s[i].createdAt <= s[|s| - 1].createdAt;
        }
      }
    }
  }

  // ----- queries -----

  /** The rows `get_user_notifications` keeps: the user's, and only unread ones when asked. */
  function Selected(s: seq<Notification>, userId: int, unreadOnly: bool): (r: seq<Notification>)
    ensures |r| <= |s|
    ensures forall i :: 0 <= i < |r| ==> r[i].userId == userId && (unreadOnly ==> !r[i].isRead)
  {
    if s == [] then []
    else
      var init, last := s[..|s| - 1], s[|s| - 1];
      var rest := Selected(init, userId, unreadOnly);
      if last.userId == userId && (unreadOnly ==> !last.isRead) then rest + [last] else rest
  }

  /** A row is selected exactly when it is in the table, the user's, and unread when asked. */
  lemma {:induction false} SelectedRule(s: seq<Notification>, userId: int, unreadOnly: bool, x: Notification)
    ensures x in Selected(s, userId, unreadOnly) <==> x in s && x.userId == userId && (unreadOnly ==> !x.isRead)
    decreases |s|
  {
    if s != [] {
      var init, last := s[..|s| - 1], s[|s| - 1];
      assert s == init + [last];
      SelectedRule(init, userId, unreadOnly, x);
    }
  }

  /** Selecting keeps the table's order, so a chronological table gives chronological rows. */
  lemma {:induction false} SelectedChronological(s: seq<Notification>, userId: int, unreadOnly: bool)
    requires Chronological(s)
    ensures Chronological(Selected(s, userId, unreadOnly))
    decreases |s|
  {
    if s != [] {
      var init, last := s[..|s| - 1], s[|s| - 1];
      var rest := Selected(init, userId, unreadOnly);
      SelectedChronological(init, userId, unreadOnly);
      if last.userId == userId && (unreadOnly ==> !last.isRead) {
        var r := rest + [last];
        forall i, j | 0 <= i < j < |r|
          ensures r[i].createdAt <= r[j].createdAt
        {
          if j == |rest| {
            assert r[i] in rest;
            SelectedRule(init, userId, unreadOnly, r[i]);
            var k :| 0 <= k < |init| && init[k] == r[i];
            assert s[k] == r[i];
          }
        }
      }
    }
  }

  /**
   * `get_user_notifications`: the selected rows, newest first, at most
   * `limit` of them: the i-th row listed is the i-th selected row counted
   * from the end.
   */
  function UserNotifications(s: seq<Notification>, userId: int, unreadOnly: bool, limit: nat): (r: seq<Notification>)
    ensures |r| == if limit < |Selected(s, userId, unreadOnly)| then limit else |Selected(s, userId, unreadOnly)|
    ensures forall i :: 0 <= i < |r| ==> r[i] == Selected(s, userId, unreadOnly)[|Selected(s, userId, unreadOnly)| - 1 - i]
  {
    var selected := Selected(s, userId, unreadOnly);
    var n := if limit < |selected| then limit else |selected|;
    seq(n, i requires 0 <= i < n => selected[|selected| - 1 - i])
  }

  /** Every listed row is the user's, unread when asked, and on a chronological table the newest comes first. */
  lemma UserNotificationsRule(s: seq<Notification>, userId: int, unreadOnly: bool, limit: nat)
    ensures var r := UserNotifications(s, userId, unreadOnly, limit);
      forall i :: 0 <= i < |r| ==> r[i] in s && r[i].userId == userId && (unreadOnly ==> !r[i].isRead)
    ensures var r := UserNotifications(s, userId, unreadOnly, limit);
      Chronological(s) ==> forall i, j :: 0 <= i < j < |r| ==> r[i].createdAt >= r[j].createdAt
  {
    var selected := Selected(s, userId, unreadOnly);
    var r := UserNotifications(s, userId, unreadOnly, limit);
    forall i | 0 <= i < |r|
      ensures r[i] in s
    {
      assert r[i] in selected;
      SelectedRule(s, userId, unreadOnly, r[i]);
    }
    if Chronological(s) {
      SelectedChronological(s, userId, unreadOnly);
      forall i, j | 0 <= i < j < |r|
        ensures r[i].createdAt >= r[j].createdAt
      {
        assert r[i] == selected[|selected| - 1 - i] && r[j] == selected[|selected| - 1 - j];
      }
    }
  }

  /** Asking for at least as many as there are gives every selected row, so the newest is first. */
  lemma NewestFirst(s: seq<Notification>, userId: int, unreadOnly: bool, limit: nat)
    requires Selected(s, userId, unreadOnly) != [] && limit > 0
    ensures UserNotifications(s, userId, unreadOnly, limit)[0] == Selected(s, userId, unreadOnly)[|Selected(s, userId, unreadOnly)| - 1]
  {
  }

  /** `get_unread_count`. */
  function UnreadCount(s: seq<Notification>, userId: int): (n: nat)
    ensures n == |Selected(s, userId, true)|
  {
    if s == [] then 0
    else UnreadCount(s[..|s| - 1], userId) + (if s[|s| - 1].userId == userId && !s[|s| - 1].isRead then 1 else 0)
  }

  /** Rows listed at non-increasing instants: newest first. */
  predicate Antichronological(s: seq<Notification>) {
    forall i, j :: 0 <= i < j < |s| ==> s[i].createdAt >= s[j].createdAt
  }

  /** `get_order_notifications`: every row of the order, newest first. */
  function OrderNotifications(s: seq<Notification>, orderId: int): (r: seq<Notification>)
    ensures |r| <= |s|
    ensures forall i :: 0 <= i < |r| ==> r[i].orderId == orderId
  {
    if s == [] then []
    else
      var last := s[|s| - 1];
      (if last.orderId == orderId then [last] else []) + OrderNotifications(s[..|s| - 1], orderId)
  }

  /** A row is listed for an order exactly when it is in the table and belongs to that order. */
  lemma {:induction false} OrderNotificationsRule(s: seq<Notification>, orderId: int, x: Notification)
    ensures x in OrderNotifications(s, orderId) <==> x in s && x.orderId == orderId
    decreases |s|
  {
    if s != [] {
      var init, last := s[..|s| - 1], s[|s| - 1];
      assert s == init + [last];
      OrderNotificationsRule(init, orderId, x);
    }
  }

  /** On a chronological table an order's rows come newest first. */
  lemma {:induction false} OrderNotificationsNewestFirst(s: seq<Notification>, orderId: int)
    requires Chronological(s)
    ensures Antichronological(OrderNotifications(s, orderId))
    decreases |s|
  {
    if s != [] {
      var init, last := s[..|s| - 1], s[|s| - 1];
      var rest := OrderNotifications(init, orderId);
      assert Chronological(init);
      OrderNotificationsNewestFirst(init, orderId);
      if last.orderId == orderId {
        var r := [last] + rest;
        forall i, j | 0 <= i < j < |r|
          ensures r[i].createdAt >= r[j].createdAt
        {
          if i == 0 {
            assert r[j] == rest[j - 1];
            OrderNotificationsRule(init, orderId, r[j]);
            var k :| 0 <= k < |init| && init[k] == r[j];
            assert s[k] == r[j] && k < |s| - 1;
            assert s[k].createdAt <= s[|s| - 1].createdAt;
            assert r[0] == last;
          } else {
            assert r[i] == rest[i - 1] && r[j] == rest[j - 1];
          }
        }
      }
    }
  }

  // ----- mark_as_read, mark_all_as_read, delete_notification -----

  /** The position of the row with id `id`, found from the front. */
  function IndexOf(s: seq<Notification>, id: int): (k: Option<nat>)
    ensures k.Some? ==> k.value < |s| && s[k.value].id == id
    ensures k.None? <==> forall j :: 0 <= j < |s| ==> s[j].id != id
  {
    if s == [] then None
    else if s[0].id == id then Some(0)
    else
      match IndexOf(s[1..], id)
      case None => None
      case Some(j) => Some(j + 1)
  }

  /** `mark_as_read`: False and no change for an unknown id; otherwise that row is read. */
  function MarkAsRead(b: Inbox, id: int): (r: (bool, Inbox))
    ensures !r.0 <==> forall j :: 0 <= j < |b.notes| ==> b.notes[j].id != id
    ensures !r.0 ==> r.1 == b
  {
    match IndexOf(b.notes, id)
    case None => (false, b)
    case Some(k) => (true, b.(notes := b.notes[k := b.notes[k].(isRead := true)]))
  }

  /**
   * On a valid table, marking changes only the row with that id, which
   * becomes read; doing it again changes nothing more.
   */
  lemma MarkAsReadRule(b: Inbox, id: int)
    requires Valid(b)
    ensures var (ok, b') := MarkAsRead(b, id);
      && Valid(b') && b'.nextId == b.nextId && |b'.notes| == |b.notes|
      && (forall j :: 0 <= j < |b.notes| ==>
            b'.notes[j] == if b.notes[j].id == id then b.notes[j].(isRead := true) else b.notes[j])
      && MarkAsRead(b', id) == (ok, b')
  {
    var (ok, b') := MarkAsRead(b, id);
    if ok {
      var k := IndexOf(b.notes, id).value;
      assert forall j :: 0 <= j < |b.notes| ==> b'.notes[j].id == b.notes[j].id;
      assert forall j :: 0 <= j < |b.notes| && j != k ==> b.notes[j].id != id;
      assert IndexOf(b'.notes, id) == Some(k);
      assert b'.notes[k := b'.notes[k].(isRead := true)] == b'.notes;
    }
  }

  /** The `mark_notification_read` route: 404 for an unknown id, 403 for someone else's row. */
  function MarkReadRoute(b: Inbox, current: int, id: int): (r: (Status, Inbox))
    ensures r.0 == Ok200 <==> IndexOf(b.notes, id).Some? && b.notes[IndexOf(b.notes, id).value].userId == current
    ensures r.0 != Ok200 ==> r.1 == b
    ensures r.0 == Ok200 ==> r.1 == MarkAsRead(b, id).1
  {
    match IndexOf(b.notes, id)
    case None => (NotFound404, b)
    case Some(k) =>
      if b.notes[k].userId != current then (Forbidden403, b)
      else (if MarkAsRead(b, id).0 then Ok200 else InternalError500, MarkAsRead(b, id).1)
  }

  /** The rows `mark_all_as_read` touches: the user's unread ones, of the order when `order_id` is truthy. */
  predicate MarkedByAll(n: Notification, userId: int, orderId: Option<int>) {
    n.userId == userId && !n.isRead && (orderId.Some? && orderId.value != 0 ==> n.orderId == orderId.value)
  }

  function ReadIfMarked(n: Notification, userId: int, orderId: Option<int>): Notification {
    if MarkedByAll(n, userId, orderId) then n.(isRead := true) else n
  }

  /** The table after `mark_all_as_read`. */
  function MarkAllAsRead(s: seq<Notification>, userId: int, orderId: Option<int>): (r: seq<Notification>)
    ensures |r| == |s|
    ensures forall j :: 0 <= j < |s| ==> r[j] == ReadIfMarked(s[j], userId, orderId)
  {
    if s == [] then []
    else MarkAllAsRead(s[..|s| - 1], userId, orderId) + [ReadIfMarked(s[|s| - 1], userId, orderId)]
  }

  /**
   * After marking all of a user's notifications with no order, the user has
   * none unread; any marking leaves every other user's count as it was and
   * never raises the user's own.
   */
  lemma {:induction false} MarkAllAsReadCounts(s: seq<Notification>, userId: int, orderId: Option<int>, other: int)
    requires other != userId
    ensures orderId.None? ==> UnreadCount(MarkAllAsRead(s, userId, orderId), userId) == 0
    ensures UnreadCount(MarkAllAsRead(s, userId, orderId), other) == UnreadCount(s, other)
    ensures UnreadCount(MarkAllAsRead(s, userId, orderId), userId) <= UnreadCount(s, userId)
    decreases |s|
  {
    if s != [] {
      var r := MarkAllAsRead(s, userId, orderId);
      assert r[..|r| - 1] == MarkAllAsRead(s[..|s| - 1], userId, orderId);
      MarkAllAsReadCounts(s[..|s| - 1], userId, orderId, other);
    }
  }

  /** Marking everything twice is marking it once. */
  lemma MarkAllAsReadIdempotent(s: seq<Notification>, userId: int, orderId: Option<int>)
    ensures MarkAllAsRead(MarkAllAsRead(s, userId, orderId), userId, orderId) == MarkAllAsRead(s, userId, orderId)
  {
  }

  /** `delete_notification`: False and no change for an unknown id; otherwise that row is removed. */
  function DeleteNotification(b: Inbox, id: int): (r: (bool, Inbox))
    ensures !r.0 <==> forall j :: 0 <= j < |b.notes| ==> b.notes[j].id != id
    ensures !r.0 ==> r.1 == b
    ensures r.0 ==> |r.1.notes| == |b.notes| - 1 && r.1.nextId == b.nextId
  {
    match IndexOf(b.notes, id)
    case None => (false, b)
    case Some(k) => (true, b.(notes := b.notes[..k] + b.notes[k + 1..]))
  }

  /** Removing position `k` shifts the later rows down by one. */
  lemma RemovedAt(s: seq<Notification>, k: nat)
    requires k < |s|
    ensures |s[..k] + s[k + 1..]| == |s| - 1
    ensures forall j :: 0 <= j < k ==> (s[..k] + s[k + 1..])[j] == s[j]
    ensures forall j :: k < j < |s| ==> (s[..k] + s[k + 1..])[j - 1] == s[j]
  {
  }

  /** On a valid table, deleting removes exactly the row with that id and keeps the others in order. */
  lemma DeleteRemovesExactlyOne(b: Inbox, id: int)
    requires Valid(b)
    ensures var (ok, b') := DeleteNotification(b, id);
      && Valid(b')
      && (forall j :: 0 <= j < |b'.notes| ==> b'.notes[j].id != id)
      && (forall j :: 0 <= j < |b.notes| && b.notes[j].id != id ==> b.notes[j] in b'.notes)
  {
    match IndexOf(b.notes, id)
    case None =>
    case Some(k) =>
      RemoveOne(b.notes, k, b.nextId);
      assert DeleteNotification(b, id).1 == Inbox(b.notes[..k] + b.notes[k + 1..], b.nextId);
  }

  /** Removing one row of a valid table leaves a valid table without that row's id and with every other row. */
  lemma RemoveOne(s: seq<Notification>, k: nat, nextId: int)
    requires k < |s| && Valid(Inbox(s, nextId))
    ensures var rest := s[..k] + s[k + 1..];
      && Valid(Inbox(rest, nextId))
      && (forall j :: 0 <= j < |rest| ==> rest[j].id != s[k].id)
      && (forall j :: 0 <= j < |s| && j != k ==> s[j] in rest)
  {
    var rest := s[..k] + s[k + 1..];
    RemovedAt(s, k);
    forall i, j | 0 <= i < j < |rest|
      ensures rest[i].id < rest[j].id
    {
      var i', j' := if i < k then i else i + 1, if j < k then j else j + 1;
      assert rest[i] == s[i'] && rest[j] == s[j'];
    }
    forall j | 0 <= j < |rest|
      ensures rest[j].id != s[k].id && rest[j].id < nextId
    {
      var j' := if j < k then j else j + 1;
      assert rest[j] == s[j'];
      if j' < k {
        assert s[j'].id < s[k].id;
      } else {
        assert s[k].id < s[j'].id;
      }
    }
    forall j | 0 <= j < |s| && j != k
      ensures s[j] in rest
    {
      if j < k {
        assert rest[j] == s[j];
      } else {
        assert rest[j - 1] == s[j];
      }
    }
  }

  /** The service over its table, performed in place. */
  class NotificationCenter {
    var notes: seq<Notification>
    var nextId: int

    function State(): Inbox
      reads this
    {
      Inbox(notes, nextId)
    }

    constructor()
      ensures State() == Inbox([], 1)
    {
      notes := [];
      nextId := 1;
    }

    method Create(userId: int, orderId: int, kind: string, minutes: Option<int>, now: int)
      returns (created: Option<Notification>)
      modifies this
      ensures (created, State()) == CreateNotification(old(State()), userId, orderId, kind, minutes, now)
    {
      var message := MessageFor(kind, orderId, minutes);
      if message.None? {
        return None;
      }
      var n := Notification(nextId, userId, orderId, message.value, kind, false, now);
      notes := notes + [n];
      nextId := nextId + 1;
      created := Some(n);
    }

    /** Sends what a tracking route asked for. */
    method Deliver(notice: Notice, now: int) returns (created: Option<Notification>)
      modifies this
      ensures (created, State()) ==
              CreateNotification(old(State()), notice.userId, notice.orderId, NoticeKind(notice), NoticeMinutes(notice), now)
      ensures created.Some?
    {
      created := Create(notice.userId, notice.orderId, NoticeKind(notice), NoticeMinutes(notice), now);
    }

    method MarkRead(id: int) returns (ok: bool)
      modifies this
      ensures (ok, State()) == MarkAsRead(old(State()), id)
    {
      var k := IndexOf(notes, id);
      if k.None? {
        return false;
      }
      notes := notes[k.value := notes[k.value].(isRead := true)];
      ok := true;
    }

    /** `mark_all_as_read`: the loop over the selected rows. */
    method MarkAllRead(userId: int, orderId: Option<int>) returns (ok: bool)
      modifies this
      ensures ok
      ensures State() == old(State()).(notes := MarkAllAsRead(old(notes), userId, orderId))
    {
      var current := notes;
      var updated := current;
      for i := 0 to |current|
        invariant |updated| == |current|
        invariant forall j :: 0 <= j < i ==> updated[j] == ReadIfMarked(current[j], userId, orderId)
        invariant forall j :: i <= j < |current| ==> updated[j] == current[j]
      {
        if MarkedByAll(current[i], userId, orderId) {
          updated := updated[i := current[i].(isRead := true)];
        }
      }
      notes := updated;
      ok := true;
    }

    method Delete(id: int) returns (ok: bool)
      modifies this
      ensures (ok, State()) == DeleteNotification(old(State()), id)
    {
      var k := IndexOf(notes, id);
      if k.None? {
        return false;
      }
      notes := notes[..k.value] + notes[k.value + 1..];
      ok := true;
    }
  }
}
