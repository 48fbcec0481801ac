/**
 * The records of the messaging app and the rules its foreign keys impose
 * (Django-signals_orm-0x04/messaging/models.py).
 *
 * The database is the value `Tables`: the user table and the three model
 * tables, each keyed by primary key. `Consistent` is referential integrity.
 * The `on_delete` rules become the pure functions `DeleteMessages` (what
 * deleting messages cascades to) and `DeleteUser` (what deleting a user
 * cascades to or nulls).
 */
module Models {
  import opened Wrappers
  import opened Ordering

  type UserId = nat
  type MessageId = nat
  type NotificationId = nat
  type HistoryId = nat

  /** A message; `id` 0 stands for an instance not yet saved (no primary key). */
  datatype Message = Message(
    id: MessageId,
    sender: UserId,
    receiver: UserId,
    content: string,
    timestamp: nat,
    read: bool,
    edited: bool,
    editedBy: Option<UserId>,
    parent: Option<MessageId>)

  datatype Notification = Notification(
    id: NotificationId,
    user: UserId,
    message: MessageId,
    createdAt: nat,
    read: bool)

  datatype MessageHistory = MessageHistory(
    id: HistoryId,
    message: MessageId,
    oldContent: string,
    editedBy: Option<UserId>,
    editedAt: nat)

  /** Each table maps a primary key to the row that carries it. */
  type MessageTable = ms: map<MessageId, Message> | forall id | id in ms :: ms[id].id == id
    witness map[]
  type NotificationTable = ns: map<NotificationId, Notification> | forall n | n in ns :: ns[n].id == n
    witness map[]
  type HistoryTable = hs: map<HistoryId, MessageHistory> | forall h | h in hs :: hs[h].id == h
    witness map[]

  datatype Tables = Tables(
    users: set<UserId>,
    messages: MessageTable,
    notifications: NotificationTable,
    histories: HistoryTable)

  /** The foreign keys of a message resolve in `t`. */
  predicate MessageRefsResolve(t: Tables, m: Message)
  {
    && m.sender in t.users
    && m.receiver in t.users
    && (m.editedBy.Some? ==> m.editedBy.value in t.users)
    && (m.parent.Some? ==> m.parent.value in t.messages)
  }

  predicate NotificationRefsResolve(t: Tables, n: Notification)
  {
    n.user in t.users && n.message in t.messages
  }

  predicate HistoryRefsResolve(t: Tables, h: MessageHistory)
  {
    h.message in t.messages && (h.editedBy.Some? ==> h.editedBy.value in t.users)
  }

  /** Referential integrity: every foreign key of every row resolves. */
  ghost predicate Consistent(t: Tables)
  {
    && (forall id | id in t.messages :: MessageRefsResolve(t, t.messages[id]))
    && (forall n | n in t.notifications :: NotificationRefsResolve(t, t.notifications[n]))
    && (forall h | h in t.histories :: HistoryRefsResolve(t, t.histories[h]))
  }

  /** `r` holds no row, and no user, that `t` does not hold. */
  ghost predicate Shrinks(r: Tables, t: Tables)
  {
    && r.users <= t.users
    && r.messages.Keys <= t.messages.Keys
    && r.notifications.Keys <= t.notifications.Keys
    && r.histories.Keys <= t.histories.Keys
  }

  // ---------------------------------------------------------------------------
  // Reply threads (parent_message, models.py:14)
  // ---------------------------------------------------------------------------

  /** The messages whose parent is in `s`. */
  function Replies(ms: MessageTable, s: set<MessageId>): set<MessageId>
  {
    set id | id in ms && ms[id].parent.Some? && ms[id].parent.value in s
  }

  /** Every reply to a message of `s` is itself in `s`. */
  ghost predicate ClosedUnderReplies(ms: MessageTable, s: set<MessageId>)
  {
    forall id | id in ms && ms[id].parent.Some? && ms[id].parent.value in s :: id in s
  }

  /** A proper subset is strictly smaller. */
  lemma ProperSubsetSmaller<T>(a: set<T>, b: set<T>)
    requires a < b
    ensures |a| < |b|
  {
    assert b - a != {} by {
      assert b != a;
    }
    var x :| x in b - a;
    assert a <= b - {x};
    assert |a| <= |b - {x}| by {
      assert (b - {x}) == a + ((b - {x}) - a);
    }
  }

  /** The messages of `roots` together with all their direct and transitive replies. */
  function Thread(ms: MessageTable, roots: set<MessageId>): (r: set<MessageId>)
    requires roots <= ms.Keys
    ensures roots <= r <= ms.Keys
    ensures ClosedUnderReplies(ms, r)
    decreases |ms.Keys - roots|
  {
    var next := roots + Replies(ms, roots);
    if next == roots then roots
    else
      ProperSubsetSmaller(ms.Keys - next, ms.Keys - roots);
      Thread(ms, next)
  }

  /** `Thread` adds nothing beyond the replies: it lies inside every reply-closed set that contains the roots. */
  lemma {:induction false} ThreadIsLeast(ms: MessageTable, roots: set<MessageId>, s: set<MessageId>)
    requires roots <= ms.Keys && roots <= s
    requires ClosedUnderReplies(ms, s)
    ensures Thread(ms, roots) <= s
    decreases |ms.Keys - roots|
  {
    var next := roots + Replies(ms, roots);
    if next != roots {
      ProperSubsetSmaller(ms.Keys - next, ms.Keys - roots);
      ThreadIsLeast(ms, next, s);
    }
  }

  // ---------------------------------------------------------------------------
  // Deleting messages (on_delete=CASCADE at models.py:14, 28, 39)
  // ---------------------------------------------------------------------------

  /**
   * Deletes the messages of `roots` that exist, every reply below them, and every
   * notification and history row that points at a deleted message.
   */
  function DeleteMessages(t: Tables, roots: set<MessageId>): Tables
  {
    var doomed := Thread(t.messages, roots * t.messages.Keys);
    Tables(
      t.users,
      map id | id in t.messages && id !in doomed :: t.messages[id],
      map n | n in t.notifications && t.notifications[n].message !in doomed :: t.notifications[n],
      map h | h in t.histories && t.histories[h].message !in doomed :: t.histories[h])
  }

  /** Deleting messages removes the roots and their threads, keeps everything else as it was, and leaves no dangling reference. */
  lemma DeleteMessagesCascades(t: Tables, roots: set<MessageId>)
    requires Consistent(t)
    ensures var r := DeleteMessages(t, roots);
      && Consistent(r)
      && Shrinks(r, t)
      && r.users == t.users
      && (forall id | id in roots :: id !in r.messages)
      && t.messages.Keys - r.messages.Keys == Thread(t.messages, roots * t.messages.Keys)
      && (forall id | id in r.messages :: r.messages[id] == t.messages[id])
      && (forall n | n in t.notifications :: n in r.notifications <==> t.notifications[n].message in r.messages)
      && (forall n | n in r.notifications :: r.notifications[n] == t.notifications[n])
      && (forall h | h in t.histories :: h in r.histories <==> t.histories[h].message in r.messages)
      && (forall h | h in r.histories :: r.histories[h] == t.histories[h])
  {
    var r := DeleteMessages(t, roots);
    var doomed := Thread(t.messages, roots * t.messages.Keys);
    forall id | id in r.messages ensures MessageRefsResolve(r, r.messages[id]) {
      var m := t.messages[id];
      assert MessageRefsResolve(t, m);
      if m.parent.Some? {
        assert m.parent.value !in doomed;
      }
    }
  }

  // ---------------------------------------------------------------------------
  // Deleting a user (on_delete at models.py:7-8, 13, 27, 41)
  // ---------------------------------------------------------------------------

  /** The messages `u` sent or received. */
  function MessagesOf(t: Tables, u: UserId): set<MessageId>
  {
    set id | id in t.messages && (t.messages[id].sender == u || t.messages[id].receiver == u)
  }

  /** `m` with its editor cleared if that editor is `u` (SET_NULL). */
  function ClearMessageEditor(m: Message, u: UserId): Message
  {
    if m.editedBy == Some(u) then m.(editedBy := None) else m
  }

  function ClearHistoryEditor(h: MessageHistory, u: UserId): MessageHistory
  {
    if h.editedBy == Some(u) then h.(editedBy := None) else h
  }

  /**
   * What the database does when user `u` is deleted, before any signal runs:
   * messages `u` sent or received go with their whole threads; notifications
   * owned by `u` or about a deleted message go; history rows of deleted
   * messages go; `edited_by` is nulled wherever it names `u`.
   */
  function DeleteUser(t: Tables, u: UserId): Tables
  {
    var doomed := Thread(t.messages, MessagesOf(t, u));
    Tables(
      t.users - {u},
      map id | id in t.messages && id !in doomed :: ClearMessageEditor(t.messages[id], u),
      map n | n in t.notifications && t.notifications[n].user != u && t.notifications[n].message !in doomed
        :: t.notifications[n],
      map h | h in t.histories && t.histories[h].message !in doomed :: ClearHistoryEditor(t.histories[h], u))
  }

  /** The messages that survive the deletion of `u` neither involve `u` nor hang off a deleted message. */
  lemma DeleteUserKeepsMessagesResolved(t: Tables, u: UserId)
    requires Consistent(t)
    ensures var r := DeleteUser(t, u);
      forall id | id in r.messages ::
        MessageRefsResolve(r, r.messages[id]) && r.messages[id].sender != u && r.messages[id].receiver != u
  {
    var r := DeleteUser(t, u);
    var doomed := Thread(t.messages, MessagesOf(t, u));
    forall id | id in r.messages
      ensures MessageRefsResolve(r, r.messages[id]) && r.messages[id].sender != u && r.messages[id].receiver != u
    {
      var m := t.messages[id];
      assert MessageRefsResolve(t, m);
      assert id !in MessagesOf(t, u);
      if m.parent.Some? {
        assert m.parent.value !in doomed;
      }
    }
  }

  /** After deleting `u`, no row refers to `u` and integrity still holds (so no history row is orphaned). */
  lemma DeleteUserRemovesEveryReference(t: Tables, u: UserId)
    requires Consistent(t)
    ensures var r := DeleteUser(t, u);
      && Consistent(r)
      && Shrinks(r, t)
      && u !in r.users
      && (forall id | id in r.messages ::
            r.messages[id].sender != u && r.messages[id].receiver != u && r.messages[id].editedBy != Some(u))
      && (forall n | n in r.notifications :: r.notifications[n].user != u)
      && (forall h | h in r.histories :: r.histories[h].editedBy != Some(u))
  {
    var r := DeleteUser(t, u);
    DeleteUserKeepsMessagesResolved(t, u);
    forall n | n in r.notifications ensures NotificationRefsResolve(r, r.notifications[n]) {
      assert NotificationRefsResolve(t, t.notifications[n]);
    }
    forall h | h in r.histories ensures HistoryRefsResolve(r, r.histories[h]) {
      assert HistoryRefsResolve(t, t.histories[h]);
    }
  }

  /**
   * Deleting `u` removes only `u` from the users, keeps every message outside the threads
   * of `u`'s messages and every history row of a kept message, only clearing `edited_by`
   * where it named `u`, and keeps unchanged every notification of another user about a
   * kept message.
   */
  lemma DeleteUserNullsEditors(t: Tables, u: UserId)
    requires Consistent(t)
    ensures var r := DeleteUser(t, u);
      && r.users == t.users - {u}
      && t.messages.Keys - r.messages.Keys == Thread(t.messages, MessagesOf(t, u))
      && (forall id | id in r.messages ::
            r.messages[id] == t.messages[id].(editedBy := if t.messages[id].editedBy == Some(u) then None else t.messages[id].editedBy))
      && (forall h | h in t.histories && t.histories[h].message in r.messages ::
            h in r.histories
            && r.histories[h] == t.histories[h].(editedBy := if t.histories[h].editedBy == Some(u) then None else t.histories[h].editedBy))
      && (forall n | n in t.notifications && t.notifications[n].user != u && t.notifications[n].message in r.messages ::
            n in r.notifications && r.notifications[n] == t.notifications[n])
  {
  }

  /** The reply thread of no message is empty. */
  lemma ThreadOfNothing(ms: MessageTable)
    ensures Thread(ms, {}) == {}
  {
    assert Replies(ms, {}) == {};
  }

  /** Deleting a user that no longer exists changes nothing. */
  lemma DeleteUserAbsent(t: Tables, u: UserId)
    requires Consistent(t) && u !in t.users
    ensures DeleteUser(t, u) == t
  {
    var r := DeleteUser(t, u);
    assert MessagesOf(t, u) == {} by {
      forall id | id in t.messages ensures id !in MessagesOf(t, u) {
        assert MessageRefsResolve(t, t.messages[id]);
      }
    }
    ThreadOfNothing(t.messages);
    assert r.messages == t.messages by {
      forall id | id in t.messages ensures ClearMessageEditor(t.messages[id], u) == t.messages[id] {
        assert MessageRefsResolve(t, t.messages[id]);
      }
    }
    assert r.notifications == t.notifications by {
      forall n | n in t.notifications ensures t.notifications[n].user != u {
        assert NotificationRefsResolve(t, t.notifications[n]);
      }
    }
    assert r.histories == t.histories by {
      forall h | h in t.histories ensures ClearHistoryEditor(t.histories[h], u) == t.histories[h] {
        assert HistoryRefsResolve(t, t.histories[h]);
      }
    }
  }

  /** Deleting the same user twice is the same as deleting it once. */
  lemma DeleteUserIdempotent(t: Tables, u: UserId)
    requires Consistent(t)
    ensures DeleteUser(DeleteUser(t, u), u) == DeleteUser(t, u)
  {
    DeleteUserRemovesEveryReference(t, u);
    DeleteUserAbsent(DeleteUser(t, u), u);
  }

  // ---------------------------------------------------------------------------
  // Default orderings (Meta.ordering at models.py:20-21, 32-33, 44-45)
  // ---------------------------------------------------------------------------

  /** Sort key of `ordering = ['-timestamp']`. */
  function MessageOrder(m: Message): int { -(m.timestamp as int) }

  /** Sort key of `ordering = ['-created_at']`. */
  function NotificationOrder(n: Notification): int { -(n.createdAt as int) }

  /** Sort key of `ordering = ['-edited_at']`. */
  function HistoryOrder(h: MessageHistory): int { -(h.editedAt as int) }

  ghost predicate MessagesNewestFirst(s: seq<Message>)
  {
    forall i, j | 0 <= i < j < |s| :: s[i].timestamp >= s[j].timestamp
  }

  ghost predicate NotificationsNewestFirst(s: seq<Notification>)
  {
    forall i, j | 0 <= i < j < |s| :: s[i].createdAt >= s[j].createdAt
  }

  ghost predicate HistoriesNewestFirst(s: seq<MessageHistory>)
  {
    forall i, j | 0 <= i < j < |s| :: s[i].editedAt >= s[j].editedAt
  }

  /** `Message.objects.all()`: every message, newest first. */
  ghost function AllMessages(t: Tables): (r: seq<Message>)
    ensures |r| == |t.messages|
    ensures forall m :: m in r <==> m in t.messages.Values
    ensures MessagesNewestFirst(r)
  {
    var r := Select(t.messages, (m: Message) => true, MessageOrder);
    assert KeptKeys(t.messages, (m: Message) => true) == t.messages.Keys;
    r
  }

  /** `Notification.objects.all()`: every notification, newest first. */
  ghost function AllNotifications(t: Tables): (r: seq<Notification>)
    ensures |r| == |t.notifications|
    ensures forall n :: n in r <==> n in t.notifications.Values
    ensures NotificationsNewestFirst(r)
  {
    var r := Select(t.notifications, (n: Notification) => true, NotificationOrder);
    assert KeptKeys(t.notifications, (n: Notification) => true) == t.notifications.Keys;
    r
  }

  /** `MessageHistory.objects.all()`: every history row, most recent edit first. */
  ghost function AllHistories(t: Tables): (r: seq<MessageHistory>)
    ensures |r| == |t.histories|
    ensures forall h :: h in r <==> h in t.histories.Values
    ensures HistoriesNewestFirst(r)
  {
    var r := Select(t.histories, (h: MessageHistory) => true, HistoryOrder);
    assert KeptKeys(t.histories, (h: MessageHistory) => true) == t.histories.Keys;
    r
  }
}
