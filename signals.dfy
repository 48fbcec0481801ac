/**
 * The message store and the signal handlers that keep its derived rows in step
 * (Django-signals_orm-0x04/messaging/signals.py).
 *
 * `Store` holds the four tables and the next primary key of each model table.
 * `Save` is Django's `Model.save()` on a Message with the two receivers that
 * listen to it: `log_message_edit` (pre_save) and
 * `create_notification_on_new_message` (post_save). `DeleteUser` is
 * `User.delete()`: the database's `on_delete` rules first, then the three
 * post_delete receivers in the order they are registered.
 */
module Signals {
  import opened Wrappers
  import opened Models

  /** A foreign key of the row to write does not resolve. */
  datatype SaveError = IntegrityError

  /** The notifications that point at message `id`. */
  function NotificationsAbout(ns: NotificationTable, id: MessageId): set<NotificationId>
  {
    set n | n in ns && ns[n].message == id
  }

  /** The history rows that point at message `id`. */
  function HistoryAbout(hs: HistoryTable, id: MessageId): set<HistoryId>
  {
    set h | h in hs && hs[h].message == id
  }

  /** The pre_save test: the instance has a primary key, its row exists, and the content differs from the stored one. */
  predicate IsContentEdit(ms: MessageTable, instance: Message)
  {
    instance.id != 0 && instance.id in ms && ms[instance.id].content != instance.content
  }

  /** The recorded editor: the authenticated current user when there is one, otherwise the sender. */
  function ResolveEditor(instance: Message, currentUser: Option<UserId>): UserId
  {
    if currentUser.Some? then currentUser.value else instance.sender
  }

  // ---------------------------------------------------------------------------
  // The filter-deletes the post_delete receivers issue, as functions on the tables
  // ---------------------------------------------------------------------------

  /** `Message.objects.filter(sender_id=u)` */
  function SentBy(t: Tables, u: UserId): set<MessageId>
  {
    set id | id in t.messages && t.messages[id].sender == u
  }

  /** `Message.objects.filter(receiver_id=u)` */
  function ReceivedBy(t: Tables, u: UserId): set<MessageId>
  {
    set id | id in t.messages && t.messages[id].receiver == u
  }

  /** `Notification.objects.filter(user_id=u).delete()` */
  function DeleteNotificationsOf(t: Tables, u: UserId): Tables
  {
    t.(notifications := map n | n in t.notifications && t.notifications[n].user != u :: t.notifications[n])
  }

  /** `MessageHistory.objects.filter(edited_by_id=u).delete()` */
  function DeleteHistoriesEditedBy(t: Tables, u: UserId): Tables
  {
    t.(histories := map h | h in t.histories && t.histories[h].editedBy != Some(u) :: t.histories[h])
  }

  /** `MessageHistory.objects.filter(message_id__in=ids).delete()` */
  function DeleteHistoriesOf(t: Tables, ids: set<MessageId>): Tables
  {
    t.(histories := map h | h in t.histories && t.histories[h].message !in ids :: t.histories[h])
  }

  /** `MessageHistory.objects.exclude(message_id__in=<all message ids>).delete()` */
  function DeleteOrphanHistories(t: Tables): Tables
  {
    t.(histories := map h | h in t.histories && t.histories[h].message in t.messages :: t.histories[h])
  }

  /** The four deletes every receiver starts with: sent messages, received messages, owned notifications, edited histories. */
  function DeleteUserRows(t: Tables, u: UserId): Tables
  {
    var t1 := DeleteMessages(t, SentBy(t, u));
    var t2 := DeleteMessages(t1, ReceivedBy(t1, u));
    DeleteHistoriesEditedBy(DeleteNotificationsOf(t2, u), u)
  }

  /** Net effect of `cleanup_user_data`, and equally of `comprehensive_user_data_cleanup`. */
  function CleanupUserDataEffect(t: Tables, u: UserId): Tables
  {
    var t4 := DeleteUserRows(t, u);
    var ids := SentBy(t4, u) + ReceivedBy(t4, u);
    if ids != {} then DeleteHistoriesOf(t4, ids) else t4
  }

  /** Net effect of `cleanup_user_data_alternative` (its logging and exception handling left aside). */
  function CleanupUserDataAlternativeEffect(t: Tables, u: UserId): Tables
  {
    DeleteOrphanHistories(DeleteUserRows(t, u))
  }

  /** Each filter-delete keeps referential integrity and only removes rows. */
  lemma DeleteNotificationsOfConsistent(t: Tables, u: UserId)
    requires Consistent(t)
    ensures Consistent(DeleteNotificationsOf(t, u)) && Shrinks(DeleteNotificationsOf(t, u), t)
  {
  }

  lemma DeleteHistoriesEditedByConsistent(t: Tables, u: UserId)
    requires Consistent(t)
    ensures Consistent(DeleteHistoriesEditedBy(t, u)) && Shrinks(DeleteHistoriesEditedBy(t, u), t)
  {
  }

  lemma DeleteHistoriesOfConsistent(t: Tables, ids: set<MessageId>)
    requires Consistent(t)
    ensures Consistent(DeleteHistoriesOf(t, ids)) && Shrinks(DeleteHistoriesOf(t, ids), t)
  {
  }

  lemma DeleteOrphanHistoriesConsistent(t: Tables)
    requires Consistent(t)
    ensures Consistent(DeleteOrphanHistories(t)) && Shrinks(DeleteOrphanHistories(t), t)
  {
  }

  /** The four shared deletes keep referential integrity and only remove rows. */
  lemma DeleteUserRowsConsistent(t: Tables, u: UserId)
    requires Consistent(t)
    ensures Consistent(DeleteUserRows(t, u)) && Shrinks(DeleteUserRows(t, u), t)
  {
    var t1 := DeleteMessages(t, SentBy(t, u));
    DeleteMessagesCascades(t, SentBy(t, u));
    var t2 := DeleteMessages(t1, ReceivedBy(t1, u));
    DeleteMessagesCascades(t1, ReceivedBy(t1, u));
    var t3 := DeleteNotificationsOf(t2, u);
    DeleteNotificationsOfConsistent(t2, u);
    DeleteHistoriesEditedByConsistent(t3, u);
    assert DeleteUserRows(t, u) == DeleteHistoriesEditedBy(t3, u);
  }

  /** Every receiver keeps referential integrity and only removes rows. */
  lemma CleanupKeepsConsistency(t: Tables, u: UserId)
    requires Consistent(t)
    ensures Consistent(CleanupUserDataEffect(t, u)) && Shrinks(CleanupUserDataEffect(t, u), t)
    ensures Consistent(CleanupUserDataAlternativeEffect(t, u)) && Shrinks(CleanupUserDataAlternativeEffect(t, u), t)
  {
    var t4 := DeleteUserRows(t, u);
    DeleteUserRowsConsistent(t, u);
    DeleteHistoriesOfConsistent(t4, SentBy(t4, u) + ReceivedBy(t4, u));
    DeleteOrphanHistoriesConsistent(t4);
  }

  /** Writing a row whose foreign keys resolve keeps referential integrity. */
  lemma WriteMessageConsistent(t: Tables, m: Message)
    requires Consistent(t) && MessageRefsResolve(t, m)
    ensures Consistent(t.(messages := t.messages[m.id := m]))
  {
    var r := t.(messages := t.messages[m.id := m]);
    forall id | id in r.messages ensures MessageRefsResolve(r, r.messages[id]) {
      if id != m.id {
        assert MessageRefsResolve(t, t.messages[id]);
      }
    }
    forall n | n in r.notifications ensures NotificationRefsResolve(r, r.notifications[n]) {
      assert NotificationRefsResolve(t, t.notifications[n]);
    }
    forall h | h in r.histories ensures HistoryRefsResolve(r, r.histories[h]) {
      assert HistoryRefsResolve(t, t.histories[h]);
    }
  }

  /**
   * Whatever the tables hold, the four shared deletes leave no message sent or received
   * by `u`, no notification of `u` and no history row edited by `u`. So the id lists
   * built at signals.py:82-83 and 178-179 are always empty, the deletes guarded at
   * signals.py:86-87 and 181-185 never run, and `cleanup_user_data` comes down to
   * the shared deletes.
   */
  lemma CleanupIdListsAlwaysEmpty(t: Tables, u: UserId)
    ensures SentBy(DeleteUserRows(t, u), u) == {} && ReceivedBy(DeleteUserRows(t, u), u) == {}
    ensures forall n | n in DeleteUserRows(t, u).notifications :: DeleteUserRows(t, u).notifications[n].user != u
    ensures forall h | h in DeleteUserRows(t, u).histories :: DeleteUserRows(t, u).histories[h].editedBy != Some(u)
    ensures CleanupUserDataEffect(t, u) == DeleteUserRows(t, u)
  {
    var t1 := DeleteMessages(t, SentBy(t, u));
    assert SentBy(t, u) * t.messages.Keys == SentBy(t, u);
    assert SentBy(t1, u) == {} by {
      forall id | id in t1.messages ensures t1.messages[id].sender != u {
        assert id !in SentBy(t, u);
      }
    }
    var t2 := DeleteMessages(t1, ReceivedBy(t1, u));
    assert ReceivedBy(t1, u) * t1.messages.Keys == ReceivedBy(t1, u);
    var r := DeleteUserRows(t, u);
    assert r.messages == t2.messages;
    forall id | id in t2.messages
      ensures t2.messages[id].sender != u && t2.messages[id].receiver != u
    {
      assert id !in ReceivedBy(t1, u);
    }
    assert SentBy(r, u) == {};
    assert ReceivedBy(r, u) == {};
  }

  /**
   * `cleanup_user_data` as evidently intended: the ids of the messages `u` sent or
   * received are taken before those messages are deleted, and their history rows go.
   */
  function IntendedCleanupUserDataEffect(t: Tables, u: UserId): (r: Tables)
    ensures forall h | h in r.histories :: r.histories[h].message !in SentBy(t, u) + ReceivedBy(t, u)
  {
    var ids := SentBy(t, u) + ReceivedBy(t, u);
    DeleteHistoriesOf(DeleteUserRows(t, u), ids)
  }

  /**
   * Under referential integrity the intended cleanup is what the written code does:
   * the cascade of the message deletes already removed the history rows it targets.
   */
  lemma IntendedCleanupMatchesWritten(t: Tables, u: UserId)
    requires Consistent(t)
    ensures IntendedCleanupUserDataEffect(t, u) == CleanupUserDataEffect(t, u)
  {
    var ids := SentBy(t, u) + ReceivedBy(t, u);
    var r := DeleteUserRows(t, u);
    CleanupIdListsAlwaysEmpty(t, u);
    DeleteUserRowsConsistent(t, u);
    SurvivorsUninvolved(t, u);
    forall h | h in r.histories ensures r.histories[h].message !in ids {
      assert HistoryRefsResolve(r, r.histories[h]);
    }
    assert DeleteHistoriesOf(r, ids).histories == r.histories;
  }

  /** No message `u` sent or received survives the shared deletes. */
  lemma SurvivorsUninvolved(t: Tables, u: UserId)
    ensures forall id | id in DeleteUserRows(t, u).messages :: id !in SentBy(t, u) + ReceivedBy(t, u)
  {
    var t1 := DeleteMessages(t, SentBy(t, u));
    var t2 := DeleteMessages(t1, ReceivedBy(t1, u));
    var r := DeleteUserRows(t, u);
    CleanupIdListsAlwaysEmpty(t, u);
    assert r.messages == t2.messages;
    forall id | id in r.messages ensures id !in SentBy(t, u) + ReceivedBy(t, u) {
      assert r.messages[id] == t1.messages[id] == t.messages[id];
      assert id !in SentBy(r, u) && id !in ReceivedBy(r, u);
    }
  }

  /** Deleting no message changes nothing. */
  lemma DeleteNoMessages(t: Tables)
    ensures DeleteMessages(t, {}) == t
  {
    ThreadOfNothing(t.messages);
    var r := DeleteMessages(t, {});
    assert r.messages == t.messages;
    assert r.notifications == t.notifications;
    assert r.histories == t.histories;
  }

  /**
   * Once `u` is gone and integrity holds, every receiver deletes nothing: the
   * cleanup is idempotent, and the id lists at signals.py:82-83 and 178-179
   * are empty, so the conditional deletes never run.
   */
  lemma UserCleanupIsNoOp(t: Tables, u: UserId)
    requires Consistent(t) && u !in t.users
    ensures SentBy(DeleteUserRows(t, u), u) + ReceivedBy(DeleteUserRows(t, u), u) == {}
    ensures CleanupUserDataEffect(t, u) == t
    ensures CleanupUserDataAlternativeEffect(t, u) == t
  {
    assert SentBy(t, u) == {} && ReceivedBy(t, u) == {} by {
      forall id | id in t.messages ensures t.messages[id].sender != u && t.messages[id].receiver != u {
        assert MessageRefsResolve(t, t.messages[id]);
      }
    }
    DeleteNoMessages(t);
    assert DeleteNotificationsOf(t, u) == t by {
      forall n | n in t.notifications ensures t.notifications[n].user != u {
        assert NotificationRefsResolve(t, t.notifications[n]);
      }
      assert DeleteNotificationsOf(t, u).notifications == t.notifications;
    }
    assert DeleteHistoriesEditedBy(t, u) == t by {
      forall h | h in t.histories ensures t.histories[h].editedBy != Some(u) {
        assert HistoryRefsResolve(t, t.histories[h]);
      }
      assert DeleteHistoriesEditedBy(t, u).histories == t.histories;
    }
    assert DeleteUserRows(t, u) == t;
    assert DeleteOrphanHistories(t) == t by {
      forall h | h in t.histories ensures t.histories[h].message in t.messages {
        assert HistoryRefsResolve(t, t.histories[h]);
      }
      assert DeleteOrphanHistories(t).histories == t.histories;
    }
  }

  /** The messages with keys in `ids` marked read. */
  function MarkRead(ms: MessageTable, ids: set<MessageId>): MessageTable
  {
    map id | id in ms :: if id in ids then ms[id].(read := true) else ms[id]
  }

  /** Marking messages read keeps every key, changes only the `read` flag of the chosen ones, and keeps integrity. */
  lemma MarkReadConsistent(t: Tables, ids: set<MessageId>)
    requires Consistent(t)
    ensures var r := t.(messages := MarkRead(t.messages, ids));
      && Consistent(r)
      && r.messages.Keys == t.messages.Keys
      && (forall id | id in r.messages :: r.messages[id].read == (id in ids || t.messages[id].read))
      && (forall id | id in r.messages :: r.messages[id].(read := t.messages[id].read) == t.messages[id])
  {
    var r := t.(messages := MarkRead(t.messages, ids));
    forall id | id in r.messages ensures MessageRefsResolve(r, r.messages[id]) {
      assert MessageRefsResolve(t, t.messages[id]);
    }
    forall n | n in r.notifications ensures NotificationRefsResolve(r, r.notifications[n]) {
      assert NotificationRefsResolve(t, t.notifications[n]);
    }
    forall h | h in r.histories ensures HistoryRefsResolve(r, r.histories[h]) {
      assert HistoryRefsResolve(t, t.histories[h]);
    }
  }

  class Store {
    var users: set<UserId>
    var messages: MessageTable
    var notifications: NotificationTable
    var histories: HistoryTable
    var nextMessageId: MessageId
    var nextNotificationId: NotificationId
    var nextHistoryId: HistoryId

    /** The tables as a value. */
    function Snapshot(): Tables
      reads this
    {
      Tables(users, messages, notifications, histories)
    }

    /** Integrity holds, no stored message has key 0, and every next key is above all used ones. */
    ghost predicate Valid()
      reads this
    {
      && Consistent(Snapshot())
      && 0 !in messages
      && 1 <= nextMessageId
      && (forall id | id in messages :: id < nextMessageId)
      && (forall n | n in notifications :: n < nextNotificationId)
      && (forall h | h in histories :: h < nextHistoryId)
    }

    constructor (users: set<UserId>)
      ensures Valid()
      ensures Snapshot() == Tables(users, map[], map[], map[])
    {
      this.users := users;
      messages := map[];
      notifications := map[];
      histories := map[];
      nextMessageId := 1;
      nextNotificationId := 1;
      nextHistoryId := 1;
    }

    /** Replaces the tables by `t`, which only removes rows and keeps integrity. */
    method Load(t: Tables)
      requires Valid()
      requires Consistent(t) && Shrinks(t, Snapshot())
      modifies this`users, this`messages, this`notifications, this`histories
      ensures Valid()
      ensures Snapshot() == t
    {
      users := t.users;
      messages := t.messages;
      notifications := t.notifications;
      histories := t.histories;
    }

    /** Receiver `log_message_edit` (pre_save): snapshot the stored content when it is about to change. */
    method LogMessageEdit(instance: Message, currentUser: Option<UserId>, now: nat) returns (saved: Message)
      requires Valid()
      requires MessageRefsResolve(Snapshot(), instance)
      requires currentUser.Some? ==> currentUser.value in users
      modifies this`histories, this`nextHistoryId
      ensures Valid()
      ensures MessageRefsResolve(Snapshot(), saved)
      ensures IsContentEdit(messages, instance) ==>
        && saved == instance.(edited := true, editedBy := Some(ResolveEditor(instance, currentUser)))
        && histories == old(histories)[old(nextHistoryId) :=
             MessageHistory(old(nextHistoryId), instance.id, messages[instance.id].content,
                            Some(ResolveEditor(instance, currentUser)), now)]
      ensures !IsContentEdit(messages, instance) ==>
        saved == instance && histories == old(histories) && nextHistoryId == old(nextHistoryId)
    {
      saved := instance;
      if instance.id != 0 {
        if instance.id in messages {
          var stored := messages[instance.id];
          if stored.content != instance.content {
            var editor := ResolveEditor(instance, currentUser);
            histories := histories[nextHistoryId :=
              MessageHistory(nextHistoryId, instance.id, stored.content, Some(editor), now)];
            nextHistoryId := nextHistoryId + 1;
            saved := saved.(edited := true, editedBy := Some(editor));
          }
        }
      }
    }

    /** Receiver `create_notification_on_new_message` (post_save): notify the receiver of a new message unless it is self-addressed. */
    method CreateNotificationOnNewMessage(instance: Message, created: bool, now: nat)
      requires Valid()
      requires instance.id in messages && messages[instance.id] == instance
      modifies this`notifications, this`nextNotificationId
      ensures Valid()
      ensures created && instance.receiver != instance.sender ==>
        && notifications == old(notifications)[old(nextNotificationId) :=
             Notification(old(nextNotificationId), instance.receiver, instance.id, now, false)]
        && nextNotificationId == old(nextNotificationId) + 1
      ensures !(created && instance.receiver != instance.sender) ==>
        notifications == old(notifications) && nextNotificationId == old(nextNotificationId)
    {
      if created && instance.receiver != instance.sender {
        assert MessageRefsResolve(Snapshot(), instance);
        notifications := notifications[nextNotificationId :=
          Notification(nextNotificationId, instance.receiver, instance.id, now, false)];
        nextNotificationId := nextNotificationId + 1;
      }
    }

    /** The row write of `save()`: an UPDATE when the primary key is stored, else an INSERT, with the next key when it has none. */
    method WriteRow(row: Message) returns (saved: Message, created: bool)
      requires Valid()
      requires MessageRefsResolve(Snapshot(), row)
      modifies this`messages, this`nextMessageId
      ensures Valid()
      ensures created <==> row.id !in old(messages)
      ensures created ==> saved == row.(id := if row.id == 0 then old(nextMessageId) else row.id)
      ensures created ==> saved.id !in old(messages)
      ensures !created ==> saved == row
      ensures messages == old(messages)[saved.id := saved]
    {
      saved := row;
      created := !(row.id != 0 && row.id in messages);
      if created {
        if saved.id == 0 {
          saved := saved.(id := nextMessageId);
        }
        if saved.id >= nextMessageId {
          nextMessageId := saved.id + 1;
        }
      }
      WriteMessageConsistent(Snapshot(), saved);
      messages := messages[saved.id := saved];
    }

    /**
     * `Model.save()` on a Message. The row is checked for dangling foreign keys
     * first; then pre_save runs, the row is updated (primary key present and
     * stored) or inserted (with the next key when it has none), and post_save runs.
     */
    method Save(instance: Message, currentUser: Option<UserId>, now: nat) returns (r: Result<Message, SaveError>)
      requires Valid()
      requires currentUser.Some? ==> currentUser.value in users
      modifies this
      ensures Valid()
      ensures users == old(users)
      ensures r.Ok? <==> MessageRefsResolve(old(Snapshot()), instance)
      ensures r.Err? ==> Snapshot() == old(Snapshot())
      ensures r.Ok? ==> messages == old(messages)[r.value.id := r.value]
      ensures r.Ok? && IsContentEdit(old(messages), instance) ==>
        && r.value == instance.(edited := true, editedBy := Some(ResolveEditor(instance, currentUser)))
        && histories == old(histories)[old(nextHistoryId) :=
             MessageHistory(old(nextHistoryId), instance.id, old(messages)[instance.id].content,
                            Some(ResolveEditor(instance, currentUser)), now)]
      ensures r.Ok? && !IsContentEdit(old(messages), instance) ==>
        histories == old(histories) && r.value == instance.(id := r.value.id)
      ensures r.Ok? && instance.id in old(messages) ==>
        r.value.id == instance.id && notifications == old(notifications)
      ensures r.Ok? && instance.id !in old(messages) ==>
        && r.value.id !in old(messages)
        && r.value.id == (if instance.id == 0 then old(nextMessageId) else instance.id)
        && notifications == (if instance.sender != instance.receiver
             then old(notifications)[old(nextNotificationId) :=
                    Notification(old(nextNotificationId), instance.receiver, r.value.id, now, false)]
             else old(notifications))
    {
      if !MessageRefsResolve(Snapshot(), instance) {
        return Err(IntegrityError);
      }
      var edited := LogMessageEdit(instance, currentUser, now);
      var saved, created := WriteRow(edited);
      CreateNotificationOnNewMessage(saved, created, now);
      r := Ok(saved);
    }

    /**
     * `Message.objects.create(sender=..., receiver=..., content=..., parent_message=...)`:
     * a new unread, unedited message timestamped `now`, and exactly one notification
     * for its receiver unless it is self-addressed.
     */
    method CreateMessage(sender: UserId, receiver: UserId, content: string, parent: Option<MessageId>, now: nat)
      returns (r: Result<Message, SaveError>)
      requires Valid()
      modifies this
      ensures Valid()
      ensures r.Ok? <==> sender in old(users) && receiver in old(users) && (parent.Some? ==> parent.value in old(messages))
      ensures r.Err? ==> Snapshot() == old(Snapshot())
      ensures r.Ok? ==>
        && r.value == Message(old(nextMessageId), sender, receiver, content, now, false, false, None, parent)
        && r.value.id !in old(messages)
        && messages == old(messages)[r.value.id := r.value]
        && histories == old(histories)
        && users == old(users)
      ensures r.Ok? ==>
        NotificationsAbout(notifications, r.value.id) == (if sender != receiver then {old(nextNotificationId)} else {})
      ensures r.Ok? && sender != receiver ==>
        notifications == old(notifications)[old(nextNotificationId) :=
          Notification(old(nextNotificationId), receiver, r.value.id, now, false)]
      ensures r.Ok? && sender == receiver ==> notifications == old(notifications)
    {
      assert NotificationsAbout(notifications, nextMessageId) == {} by {
        forall n | n in notifications ensures notifications[n].message != nextMessageId {
          assert NotificationRefsResolve(Snapshot(), notifications[n]);
        }
      }
      r := Save(Message(0, sender, receiver, content, now, false, false, None, parent), None, now);
    }

    /** `Message.delete()`: the message, its whole reply thread, and their notifications and history rows go. */
    method DeleteMessage(id: MessageId)
      requires Valid()
      modifies this`users, this`messages, this`notifications, this`histories
      ensures Valid()
      ensures Snapshot() == DeleteMessages(old(Snapshot()), {id})
    {
      DeleteMessagesCascades(Snapshot(), {id});
      Load(DeleteMessages(Snapshot(), {id}));
    }

    /** The database's `on_delete` rules for deleting user `u` (CASCADE and SET_NULL), applied before any signal. */
    method ApplyUserOnDelete(u: UserId)
      requires Valid()
      modifies this`users, this`messages, this`notifications, this`histories
      ensures Valid()
      ensures Snapshot() == Models.DeleteUser(old(Snapshot()), u)
    {
      DeleteUserRemovesEveryReference(Snapshot(), u);
      Load(Models.DeleteUser(Snapshot(), u));
    }

    /** Receiver `cleanup_user_data` (post_delete of User). */
    method CleanupUserData(u: UserId)
      requires Valid()
      modifies this`users, this`messages, this`notifications, this`histories
      ensures Valid()
      ensures Snapshot() == CleanupUserDataEffect(old(Snapshot()), u)
      ensures Snapshot() == IntendedCleanupUserDataEffect(old(Snapshot()), u)
    {
      IntendedCleanupMatchesWritten(Snapshot(), u);
      CleanupKeepsConsistency(Snapshot(), u);
      var t := Snapshot();
      t := DeleteMessages(t, SentBy(t, u));
      t := DeleteMessages(t, ReceivedBy(t, u));
      t := DeleteNotificationsOf(t, u);
      t := DeleteHistoriesEditedBy(t, u);
      var ids := SentBy(t, u) + ReceivedBy(t, u);
      if ids != {} {
        t := DeleteHistoriesOf(t, ids);
      }
      Load(t);
    }

    /** Receiver `cleanup_user_data_alternative` (post_delete of User): the same deletes, then the orphan sweep. */
    method CleanupUserDataAlternative(u: UserId)
      requires Valid()
      modifies this`users, this`messages, this`notifications, this`histories
      ensures Valid()
      ensures Snapshot() == CleanupUserDataAlternativeEffect(old(Snapshot()), u)
    {
      CleanupKeepsConsistency(Snapshot(), u);
      var t := Snapshot();
      t := DeleteMessages(t, SentBy(t, u));
      t := DeleteMessages(t, ReceivedBy(t, u));
      t := DeleteNotificationsOf(t, u);
      t := DeleteHistoriesEditedBy(t, u);
      t := DeleteOrphanHistories(t);
      Load(t);
    }

    /** Receiver `comprehensive_user_data_cleanup` (post_delete of User): the same deletes as `cleanup_user_data`, the id list kept as a set. */
    method ComprehensiveUserDataCleanup(u: UserId)
      requires Valid()
      modifies this`users, this`messages, this`notifications, this`histories
      ensures Valid()
      ensures Snapshot() == CleanupUserDataEffect(old(Snapshot()), u)
      ensures Snapshot() == IntendedCleanupUserDataEffect(old(Snapshot()), u)
    {
      IntendedCleanupMatchesWritten(Snapshot(), u);
      CleanupKeepsConsistency(Snapshot(), u);
      var t := Snapshot();
      t := DeleteMessages(t, SentBy(t, u));
      t := DeleteMessages(t, ReceivedBy(t, u));
      t := DeleteNotificationsOf(t, u);
      t := DeleteHistoriesEditedBy(t, u);
      var related := SentBy(t, u) + ReceivedBy(t, u);
      if related != {} {
        t := DeleteHistoriesOf(t, related);
      }
      Load(t);
    }

    /**
     * `User.delete()`: the `on_delete` rules, then the three post_delete receivers
     * in registration order. The receivers find nothing left to delete, so the net
     * result is exactly what the `on_delete` rules produce.
     */
    method DeleteUser(u: UserId)
      requires Valid()
      modifies this`users, this`messages, this`notifications, this`histories
      ensures Valid()
      ensures Snapshot() == Models.DeleteUser(old(Snapshot()), u)
    {
      ApplyUserOnDelete(u);
      DeleteUserRemovesEveryReference(old(Snapshot()), u);
      UserCleanupIsNoOp(Snapshot(), u);
      CleanupUserData(u);
      CleanupUserDataAlternative(u);
      ComprehensiveUserDataCleanup(u);
    }

    /** `QuerySet.update(read=True)` on the messages with keys in `ids`; returns the number of rows matched. */
    method UpdateRead(ids: set<MessageId>) returns (count: nat)
      requires Valid()
      modifies this`messages
      ensures Valid()
      ensures count == |ids * old(messages).Keys|
      ensures messages == MarkRead(old(messages), ids)
    {
      count := |ids * messages.Keys|;
      MarkReadConsistent(Snapshot(), ids);
      messages := MarkRead(messages, ids);
    }
  }
}
