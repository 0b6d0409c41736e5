/**
 * The backend's notification table and the service that schedules, sends,
 * reads, reschedules and cleans up notifications.
 *
 * The table is a sequence in insertion order. Times are microseconds; the
 * clock (`datetime.utcnow()`) is the parameter `now` and new ids are
 * parameters.
 */
module Notifications {
  import opened Common
  import opened Sorting

  datatype NotificationType = MedicineReminder | AppointmentReminder | HealthCheck | Emergency | Custom

  datatype Notification = Notification(
    id: string,
    userId: string,
    notificationType: NotificationType,
    title: string,
    message: string,
    scheduledAt: int,
    sentAt: Option<int>,
    isSent: bool,
    isRead: bool,
    hasVoice: bool,
    voiceFilePath: Option<string>,
    voiceGeneratedAt: Option<int>,
    priority: string,
    category: Option<string>,
    relatedRecordId: Option<string>,
    createdAt: int)

  /** `create_notification`: a new row, neither sent nor read. */
  function NewNotification(id: string, userId: string, notificationType: NotificationType, title: string,
                           message: string, scheduledAt: int, priority: string, category: Option<string>,
                           relatedRecordId: Option<string>, hasVoice: bool, voiceFilePath: Option<string>,
                           now: int): Notification
  {
    Notification(id, userId, notificationType, title, message, scheduledAt, None, false, false, hasVoice,
                 voiceFilePath, None, priority, category, relatedRecordId, now)
  }

  /** A notification has a send time exactly when it is marked sent. */
  predicate SendStateAgrees(n: Notification) {
    n.isSent <==> n.sentAt.Some?
  }

  /** The first position of the notification with id `id`, or -1. */
  function IndexOfNotification(ns: seq<Notification>, id: string): (i: int)
    ensures -1 <= i < |ns|
    ensures i >= 0 ==> ns[i].id == id && forall k :: 0 <= k < i ==> ns[k].id != id
    ensures i == -1 ==> forall k :: 0 <= k < |ns| ==> ns[k].id != id
  {
    IndexWhere(ns, (n: Notification) => n.id == id)
  }

  // ---------------------------------------------------------------------
  // get_pending_notifications

  /** Unsent, due by `cutoff`, and of the given user when one is given. */
  predicate IsPending(n: Notification, userId: Option<string>, cutoff: int) {
    !n.isSent && (Truthy(userId) ==> n.userId == userId.value) && n.scheduledAt <= cutoff
  }

  function Pending(userId: Option<string>, cutoff: int): Notification -> bool {
    (n: Notification) => IsPending(n, userId, cutoff)
  }

  function ScheduledAtKey(n: Notification): real {
    n.scheduledAt as real
  }

  /**
   * `get_pending_notifications`: the pending notifications, due by
   * `beforeTime` or else by now, by ascending schedule time.
   */
  function PendingNotifications(ns: seq<Notification>, userId: Option<string>, beforeTime: Option<int>, now: int)
    : seq<Notification>
  {
    SortBy(Filter(ns, Pending(userId, Or(beforeTime, now))), ScheduledAtKey)
  }

  /**
   * The pending list holds exactly the table's pending notifications, as
   * many as there are, earliest first.
   */
  lemma PendingSpec(ns: seq<Notification>, userId: Option<string>, beforeTime: Option<int>, now: int)
    ensures var r := PendingNotifications(ns, userId, beforeTime, now);
            var cutoff := Or(beforeTime, now);
            (forall n :: n in r ==> n in ns && IsPending(n, userId, cutoff)) &&
            (forall n :: n in ns && IsPending(n, userId, cutoff) ==> n in r) &&
            |r| == Count(ns, Pending(userId, cutoff)) &&
            (forall i, j :: 0 <= i < j < |r| ==> r[i].scheduledAt <= r[j].scheduledAt)
  {
    var cutoff := Or(beforeTime, now);
    var f := Filter(ns, Pending(userId, cutoff));
    var r := SortBy(f, ScheduledAtKey);
    FilterLength(ns, Pending(userId, cutoff));
    forall n | n in r ensures n in ns && IsPending(n, userId, cutoff) {
      SortByMembers(f, ScheduledAtKey, n);
    }
    forall n | n in ns && IsPending(n, userId, cutoff) ensures n in r {
      SortByMembers(f, ScheduledAtKey, n);
    }
    forall i, j | 0 <= i < j < |r| ensures r[i].scheduledAt <= r[j].scheduledAt {
      assert ScheduledAtKey(r[i]) <= ScheduledAtKey(r[j]);
    }
  }

  // ---------------------------------------------------------------------
  // mark_notification_sent, mark_notification_read, mark_all_read

  /**
   * `mark_notification_sent`: sent now; a non-empty voice file path is
   * recorded with its generation time.
   */
  function MarkedSent(n: Notification, voiceFilePath: Option<string>, now: int): Notification {
    var sent := n.(isSent := true, sentAt := Some(now));
    if Truthy(voiceFilePath) then sent.(voiceFilePath := voiceFilePath, voiceGeneratedAt := Some(now), hasVoice := true)
    else sent
  }

  /**
   * A notification marked sent is sent with the send time `now`, is pending
   * for no user and no cutoff, and keeps every column other than the send
   * state and, only when a voice file is given, the voice columns.
   */
  lemma MarkedSentSpec(n: Notification, voiceFilePath: Option<string>, now: int)
    ensures var m := MarkedSent(n, voiceFilePath, now);
            m.isSent && m.sentAt == Some(now) && SendStateAgrees(m) &&
            (forall u, c :: !IsPending(m, u, c)) &&
            (Truthy(voiceFilePath) ==> m.hasVoice && m.voiceFilePath == voiceFilePath && m.voiceGeneratedAt == Some(now)) &&
            (!Truthy(voiceFilePath) ==> m.hasVoice == n.hasVoice && m.voiceFilePath == n.voiceFilePath &&
                                        m.voiceGeneratedAt == n.voiceGeneratedAt) &&
            m.(isSent := n.isSent, sentAt := n.sentAt, hasVoice := n.hasVoice, voiceFilePath := n.voiceFilePath,
               voiceGeneratedAt := n.voiceGeneratedAt) == n
  {
  }

  /** `mark_all_read`: the bulk update of the user's unread rows to read. */
  function ReadAll(ns: seq<Notification>, userId: string): (r: seq<Notification>)
    ensures |r| == |ns|
  {
    seq(|ns|, i requires 0 <= i < |ns| =>
      if ns[i].userId == userId && !ns[i].isRead then ns[i].(isRead := true) else ns[i])
  }

  /**
   * After `mark_all_read` every notification of the user is read, the rows
   * that change are exactly the user's unread ones and they change only in
   * being read, and repeating it changes nothing.
   */
  lemma ReadAllSpec(ns: seq<Notification>, userId: string)
    ensures var r := ReadAll(ns, userId);
            (forall i :: 0 <= i < |r| && r[i].userId == userId ==> r[i].isRead) &&
            (forall i :: 0 <= i < |r| ==> (r[i] != ns[i] <==> ns[i].userId == userId && !ns[i].isRead)) &&
            (forall i :: 0 <= i < |r| ==> r[i] == ns[i].(isRead := r[i].isRead)) &&
            ReadAll(r, userId) == r
  {
    var r := ReadAll(ns, userId);
    forall i | 0 <= i < |r| ensures ReadAll(r, userId)[i] == r[i] {
    }
  }

  // ---------------------------------------------------------------------
  // update_notification and reschedule_notification

  /** A column of a notification and the value to set, or a key that is no column. */
  datatype NotificationField =
    | Id(id: string)
    | UserId(userId: string)
    | Kind(notificationType: NotificationType)
    | Title(title: string)
    | Message(message: string)
    | ScheduledAt(scheduledAt: int)
    | SentAt(sentAt: int)
    | IsSent(isSent: bool)
    | IsRead(isRead: bool)
    | HasVoice(hasVoice: bool)
    | VoiceFilePath(path: string)
    | VoiceGeneratedAt(generatedAt: int)
    | Priority(priority: string)
    | Category(category: string)
    | RelatedRecordId(recordId: string)
    | CreatedAt(createdAt: int)
    | NotAColumn(key: string)

  /** One keyword argument of `update_notification`; `None` is a keyword whose value is `None`. */
  type NotificationUpdate = Option<NotificationField>

  /** The keyword leaves the row's id, owner and creation time alone. */
  predicate KeepsIdentity(u: NotificationUpdate) {
    u.None? || !(u.value.Id? || u.value.UserId? || u.value.CreatedAt?)
  }

  /** One step of the loop: a `None` value or a key that is no column is skipped. */
  function ApplyNotificationUpdate(n: Notification, u: NotificationUpdate): (m: Notification)
    ensures u.None? || u.value.NotAColumn? ==> m == n
    ensures KeepsIdentity(u) ==> m.id == n.id && m.userId == n.userId && m.createdAt == n.createdAt
    ensures u == Some(Id(m.id)) || u == Some(UserId(m.userId)) || u == Some(CreatedAt(m.createdAt)) || KeepsIdentity(u)
  {
    match u
    case None => n
    case Some(Id(v)) => n.(id := v)
    case Some(UserId(v)) => n.(userId := v)
    case Some(Kind(t)) => n.(notificationType := t)
    case Some(Title(t)) => n.(title := t)
    case Some(Message(t)) => n.(message := t)
    case Some(ScheduledAt(t)) => n.(scheduledAt := t)
    case Some(SentAt(t)) => n.(sentAt := Some(t))
    case Some(IsSent(b)) => n.(isSent := b)
    case Some(IsRead(b)) => n.(isRead := b)
    case Some(HasVoice(b)) => n.(hasVoice := b)
    case Some(VoiceFilePath(p)) => n.(voiceFilePath := Some(p))
    case Some(VoiceGeneratedAt(t)) => n.(voiceGeneratedAt := Some(t))
    case Some(Priority(p)) => n.(priority := p)
    case Some(Category(c)) => n.(category := Some(c))
    case Some(RelatedRecordId(r)) => n.(relatedRecordId := Some(r))
    case Some(CreatedAt(t)) => n.(createdAt := t)
    case Some(NotAColumn(_)) => n
  }

  /**
   * The keywords applied in turn. The id, owner and creation time change only
   * when a keyword names them; a notification's type can be changed.
   */
  function ApplyNotificationUpdates(n: Notification, us: seq<NotificationUpdate>): (m: Notification)
    ensures (forall k :: 0 <= k < |us| ==> KeepsIdentity(us[k])) ==>
              m.id == n.id && m.userId == n.userId && m.createdAt == n.createdAt
    ensures m.id == n.id || exists k :: 0 <= k < |us| && us[k] == Some(Id(m.id))
  {
    if us == [] then n
    else
      var prev := ApplyNotificationUpdates(n, us[..|us| - 1]);
      var m := ApplyNotificationUpdate(prev, us[|us| - 1]);
      assert m.id == n.id || exists k :: 0 <= k < |us| && us[k] == Some(Id(m.id)) by {
        if m.id != prev.id {
          assert us[|us| - 1] == Some(Id(m.id));
        } else if m.id != n.id {
          var k :| 0 <= k < |us| - 1 && us[..|us| - 1][k] == Some(Id(prev.id));
          assert us[k] == Some(Id(m.id));
        }
      }
      m
  }

  /** The type keyword that the schedule API sends changes the type and nothing else. */
  lemma TypeUpdateChangesOnlyType(n: Notification, t: NotificationType)
    ensures ApplyNotificationUpdates(n, [Some(Kind(t))]) == n.(notificationType := t)
  {
    assert [Some(Kind(t))][..0] == [];
  }

  /** A keyword whose value is `None` can never clear a column: it is skipped wherever it stands. */
  lemma {:induction false} NoneNeverClears(n: Notification, a: seq<NotificationUpdate>, b: seq<NotificationUpdate>)
    ensures ApplyNotificationUpdates(n, a + [None] + b) == ApplyNotificationUpdates(n, a + b)
  {
    if b == [] {
      assert (a + [None] + b)[..|a + [None] + b| - 1] == a && a + b == a;
    } else {
      var init := b[..|b| - 1];
      assert (a + [None] + b)[..|a + [None] + b| - 1] == a + [None] + init;
      assert (a + b)[..|a + b| - 1] == a + init;
      NoneNeverClears(n, a, init);
    }
  }

  /** The loop of `update_notification`: `setattr` for each keyword that has a value and names a column. */
  method ApplyUpdates(n: Notification, updates: seq<NotificationUpdate>) returns (m: Notification)
    ensures m == ApplyNotificationUpdates(n, updates)
  {
    m := n;
    for k := 0 to |updates|
      invariant m == ApplyNotificationUpdates(n, updates[..k])
    {
      assert updates[..k + 1][..k] == updates[..k];
      m := ApplyNotificationUpdate(m, updates[k]);
    }
    assert updates[..|updates|] == updates;
  }

  /**
   * The keywords `reschedule_notification` passes to `update_notification`
   * as written: the new time, `is_sent=False`, and `sent_at=None`.
   */
  function RescheduleUpdatesAsWritten(newScheduledTime: int): seq<NotificationUpdate> {
    [Some(ScheduledAt(newScheduledTime)), Some(IsSent(false)), None]
  }

  /**
   * As written, rescheduling a sent notification makes it unsent but keeps
   * its old send time, because the `None` for `sent_at` is skipped.
   */
  lemma RescheduleKeepsSentAtAsWritten(n: Notification, newScheduledTime: int)
    ensures var m := ApplyNotificationUpdates(n, RescheduleUpdatesAsWritten(newScheduledTime));
            m.scheduledAt == newScheduledTime && !m.isSent && m.sentAt == n.sentAt &&
            (n.sentAt.Some? ==> !SendStateAgrees(m))
  {
    var us := RescheduleUpdatesAsWritten(newScheduledTime);
    assert us[..2][..1] == us[..1] && us[..|us| - 1] == us[..2];
    assert ApplyNotificationUpdates(n, us[..1][..0]) == n;
    var m1 := ApplyNotificationUpdates(n, us[..1]);
    assert m1 == ApplyNotificationUpdate(n, Some(ScheduledAt(newScheduledTime)));
    var m2 := ApplyNotificationUpdates(n, us[..2]);
    assert m2 == ApplyNotificationUpdate(m1, Some(IsSent(false)));
    assert ApplyNotificationUpdates(n, us) == m2;
  }

  /** A concrete case: a notification sent at time 5, rescheduled to 100, is unsent with send time 5. */
  lemma SentNotificationRescheduledAsWritten()
    ensures var n := MarkedSent(NewNotification("n1", "u1", Custom, "t", "m", 0, "normal", None, None, false, None, 0),
                                None, 5);
            var m := ApplyNotificationUpdates(n, RescheduleUpdatesAsWritten(100));
            !m.isSent && m.sentAt == Some(5) && !SendStateAgrees(m)
  {
    var n := MarkedSent(NewNotification("n1", "u1", Custom, "t", "m", 0, "normal", None, None, false, None, 0), None, 5);
    RescheduleKeepsSentAtAsWritten(n, 100);
  }

  /** `reschedule_notification` as evidently intended: the new time, unsent, and no send time. */
  function Rescheduled(n: Notification, newScheduledTime: int): Notification {
    n.(scheduledAt := newScheduledTime, isSent := false, sentAt := None)
  }

  /**
   * A rescheduled notification has no send time, and it is pending at every
   * cutoff from its new time on, for its user and for all users.
   */
  lemma RescheduledIsPending(n: Notification, newScheduledTime: int, userId: Option<string>, cutoff: int)
    ensures SendStateAgrees(Rescheduled(n, newScheduledTime))
    ensures IsPending(Rescheduled(n, newScheduledTime), userId, cutoff) <==>
            newScheduledTime <= cutoff && (Truthy(userId) ==> n.userId == userId.value)
  {
  }

  /** Sending and then rescheduling gives back a pending notification with no trace of the send. */
  lemma SendThenRescheduleUndoesSend(n: Notification, now: int, newScheduledTime: int)
    ensures Rescheduled(MarkedSent(n, None, now), newScheduledTime) == Rescheduled(n, newScheduledTime)
  {
  }

  // ---------------------------------------------------------------------
  // cleanup_old_notifications

  /** The rows the cleanup deletes: the user's, created before the cutoff, and read if unread ones are kept. */
  predicate Expired(n: Notification, userId: string, cutoff: int, keepUnread: bool) {
    n.userId == userId && n.createdAt < cutoff && (keepUnread ==> n.isRead)
  }

  function ExpiredRows(userId: string, cutoff: int, keepUnread: bool): Notification -> bool {
    (n: Notification) => Expired(n, userId, cutoff, keepUnread)
  }

  function KeptRows(userId: string, cutoff: int, keepUnread: bool): Notification -> bool {
    (n: Notification) => !Expired(n, userId, cutoff, keepUnread)
  }

  /** The cutoff `now - timedelta(days=days_old)`. */
  function CleanupCutoff(daysOld: int, now: int): int {
    now - Days(daysOld)
  }

  /**
   * The cleanup keeps every row it does not delete and the count it returns
   * is the number deleted; with `keepUnread` no unread row is deleted, and
   * other users' rows and rows created at or after the cutoff are never
   * deleted.
   */
  lemma CleanupSpec(ns: seq<Notification>, userId: string, cutoff: int, keepUnread: bool)
    ensures var kept := Filter(ns, KeptRows(userId, cutoff, keepUnread));
            |kept| + Count(ns, ExpiredRows(userId, cutoff, keepUnread)) == |ns| &&
            (forall n :: n in kept ==> n in ns && !Expired(n, userId, cutoff, keepUnread)) &&
            (forall n :: n in ns && keepUnread && !n.isRead ==> n in kept) &&
            (forall n :: n in ns && (n.userId != userId || n.createdAt >= cutoff) ==> n in kept)
  {
    FilterLength(ns, KeptRows(userId, cutoff, keepUnread));
    CountComplement(ns, ExpiredRows(userId, cutoff, keepUnread), KeptRows(userId, cutoff, keepUnread));
  }

  // ---------------------------------------------------------------------
  // create_emergency_notification

  const EmergencyTitle := "CẢNH BÁO KHẨN CẤP"
  const ContactLabel := "\nLiên hệ ngay: "

  function EmergencyMessage(text: string, contactInfo: Option<string>): string {
    if Truthy(contactInfo) then text + ContactLabel + contactInfo.value else text
  }

  /** `create_emergency_notification`: an urgent emergency notification with voice, due at once. */
  function EmergencyNotification(id: string, userId: string, text: string, contactInfo: Option<string>, now: int)
    : Notification
  {
    NewNotification(id, userId, Emergency, EmergencyTitle, EmergencyMessage(text, contactInfo), now, "urgent",
                    Some("emergency"), None, true, None, now)
  }

  /**
   * An emergency notification is urgent, has voice, begins with the given
   * text, ends with the contact line exactly when a contact is given, and is
   * pending straight away for its user.
   */
  lemma EmergencyNotificationSpec(id: string, userId: string, text: string, contactInfo: Option<string>, now: int)
    ensures var n := EmergencyNotification(id, userId, text, contactInfo, now);
            n.priority == "urgent" && n.notificationType == Emergency && n.hasVoice &&
            StartsWith(n.message, text) &&
            (Truthy(contactInfo) ==> n.message[|text|..] == ContactLabel + contactInfo.value) &&
            (!Truthy(contactInfo) ==> n.message == text) &&
            IsPending(n, Some(userId), now) && IsPending(n, None, now)
  {
    var n := EmergencyNotification(id, userId, text, contactInfo, now);
    if Truthy(contactInfo) {
      assert n.message == text + (ContactLabel + contactInfo.value);
    }
  }

  // ---------------------------------------------------------------------
  // The service

  class NotificationService {
    var notifications: seq<Notification>

    constructor (notifications: seq<Notification>)
      ensures this.notifications == notifications
    {
      this.notifications := notifications;
    }

    /** `create_notification`: appends the new row unless the database write fails. */
    method CreateNotification(id: string, userId: string, notificationType: NotificationType, title: string,
                              message: string, scheduledAt: int, priority: string, category: Option<string>,
                              relatedRecordId: Option<string>, hasVoice: bool, voiceFilePath: Option<string>,
                              now: int, succeeds: bool) returns (r: Option<Notification>)
      modifies this
      ensures r.Some? <==> succeeds
      ensures succeeds ==> r.value == NewNotification(id, userId, notificationType, title, message, scheduledAt,
                                                      priority, category, relatedRecordId, hasVoice,
                                                      voiceFilePath, now) &&
                           notifications == old(notifications) + [r.value] && SendStateAgrees(r.value)
      ensures !succeeds ==> notifications == old(notifications)
    {
      if succeeds {
        var n := NewNotification(id, userId, notificationType, title, message, scheduledAt, priority, category,
                                 relatedRecordId, hasVoice, voiceFilePath, now);
        notifications := notifications + [n];
        r := Some(n);
      } else {
        r := None;
      }
    }

    /** `get_pending_notifications`. */
    method GetPendingNotifications(userId: Option<string>, beforeTime: Option<int>, now: int)
      returns (r: seq<Notification>)
      ensures r == PendingNotifications(notifications, userId, beforeTime, now)
      ensures forall n :: n in r <==> n in notifications && IsPending(n, userId, Or(beforeTime, now))
      ensures forall i, j :: 0 <= i < j < |r| ==> r[i].scheduledAt <= r[j].scheduledAt
    {
      r := PendingNotifications(notifications, userId, beforeTime, now);
      PendingSpec(notifications, userId, beforeTime, now);
    }

    /**
     * `mark_notification_sent`: false and nothing changed when no row has
     * the id; otherwise the first such row is marked sent.
     */
    method MarkNotificationSent(notificationId: string, voiceFilePath: Option<string>, now: int) returns (ok: bool)
      modifies this
      ensures var i := IndexOfNotification(old(notifications), notificationId);
              (ok <==> i >= 0) &&
              (ok ==> notifications == old(notifications)[i := MarkedSent(old(notifications)[i], voiceFilePath, now)]) &&
              (!ok ==> notifications == old(notifications))
    {
      var i := IndexOfNotification(notifications, notificationId);
      if i < 0 {
        return false;
      }
      notifications := notifications[i := MarkedSent(notifications[i], voiceFilePath, now)];
      ok := true;
    }

    /** `mark_notification_read`: false when no row has the id; otherwise the first such row is read. */
    method MarkNotificationRead(notificationId: string) returns (ok: bool)
      modifies this
      ensures var i := IndexOfNotification(old(notifications), notificationId);
              (ok <==> i >= 0) &&
              (ok ==> notifications == old(notifications)[i := old(notifications)[i].(isRead := true)]) &&
              (!ok ==> notifications == old(notifications))
    {
      var i := IndexOfNotification(notifications, notificationId);
      if i < 0 {
        return false;
      }
      notifications := notifications[i := notifications[i].(isRead := true)];
      ok := true;
    }

    /** `mark_all_read`. */
    method MarkAllRead(userId: string) returns (ok: bool)
      modifies this
      ensures ok && notifications == ReadAll(old(notifications), userId)
    {
      notifications := ReadAll(notifications, userId);
      ok := true;
    }

    /**
     * `update_notification`: false when no row has the id; otherwise the
     * keywords are applied in turn to the first such row, skipping `None`
     * values and keys that are no column.
     */
    method UpdateNotification(notificationId: string, updates: seq<NotificationUpdate>) returns (ok: bool)
      modifies this
      ensures var i := IndexOfNotification(old(notifications), notificationId);
              (ok <==> i >= 0) &&
              (ok ==> notifications == old(notifications)[i := ApplyNotificationUpdates(old(notifications)[i], updates)]) &&
              (!ok ==> notifications == old(notifications))
    {
      var i := IndexOfNotification(notifications, notificationId);
      if i < 0 {
        return false;
      }
      var n := ApplyUpdates(notifications[i], updates);
      notifications := notifications[i := n];
      ok := true;
    }

    /**
     * `reschedule_notification`, clearing the send time as intended: false
     * when no row has the id; otherwise the first such row gets the new time
     * and is unsent with no send time.
     */
    method RescheduleNotification(notificationId: string, newScheduledTime: int) returns (ok: bool)
      modifies this
      ensures var i := IndexOfNotification(old(notifications), notificationId);
              (ok <==> i >= 0) &&
              (ok ==> notifications == old(notifications)[i := Rescheduled(old(notifications)[i], newScheduledTime)] &&
                      SendStateAgrees(notifications[i])) &&
              (!ok ==> notifications == old(notifications))
    {
      var i := IndexOfNotification(notifications, notificationId);
      if i < 0 {
        return false;
      }
      notifications := notifications[i := Rescheduled(notifications[i], newScheduledTime)];
      ok := true;
    }

    /**
     * `cleanup_old_notifications`: deletes the user's rows created more
     * than `daysOld` days ago (only read ones when `keepUnread`) and returns
     * how many it deleted.
     */
    method CleanupOldNotifications(userId: string, daysOld: int, keepUnread: bool, now: int) returns (deleted: nat)
      modifies this
      ensures var cutoff := CleanupCutoff(daysOld, now);
              notifications == Filter(old(notifications), KeptRows(userId, cutoff, keepUnread)) &&
              deleted == Count(old(notifications), ExpiredRows(userId, cutoff, keepUnread)) &&
              |notifications| + deleted == |old(notifications)|
      ensures keepUnread ==> forall n :: n in old(notifications) && !n.isRead ==> n in notifications
    {
      var cutoff := CleanupCutoff(daysOld, now);
      CleanupSpec(notifications, userId, cutoff, keepUnread);
      deleted := Count(notifications, ExpiredRows(userId, cutoff, keepUnread));
      notifications := Filter(notifications, KeptRows(userId, cutoff, keepUnread));
    }

    /** `create_emergency_notification`: appends the emergency notification unless the write fails. */
    method CreateEmergencyNotification(id: string, userId: string, text: string, contactInfo: Option<string>,
                                       now: int, succeeds: bool) returns (r: Option<Notification>)
      modifies this
      ensures r.Some? <==> succeeds
      ensures succeeds ==> r.value == EmergencyNotification(id, userId, text, contactInfo, now) &&
                           notifications == old(notifications) + [r.value]
      ensures !succeeds ==> notifications == old(notifications)
    {
      r := CreateNotification(id, userId, Emergency, EmergencyTitle, EmergencyMessage(text, contactInfo), now,
                              "urgent", Some("emergency"), None, true, None, now, succeeds);
    }
  }
}
