/**
 * The messaging views (Django-signals_orm-0x04/messaging/views.py): three
 * read-only selections with their guards, and four views that change the store.
 * Rendering, redirects, JSON bodies, flash messages and page caching are left out;
 * a view's outcome is either the data it hands to its template or an HTTP error.
 */
module Views {
  import opened Wrappers
  import opened Models
  import opened Ordering
  import opened Managers
  import opened Signals

  /** The error responses: `get_object_or_404`, the 403 page, and `require_http_methods`. */
  datatype HttpError = NotFound | Forbidden | MethodNotAllowed

  /** The `Q(sender=me, receiver=other) | Q(sender=other, receiver=me)` filter. */
  predicate InConversation(me: UserId, other: UserId, m: Message)
  {
    (m.sender == me && m.receiver == other) || (m.sender == other && m.receiver == me)
  }

  /** The `order_by('timestamp')` key. */
  function OldestFirst(m: Message): int
  {
    m.timestamp as int
  }

  /** Keys of the messages between `me` and `other`. */
  function ConversationIds(t: Tables, me: UserId, other: UserId): set<MessageId>
  {
    set id | id in t.messages && InConversation(me, other, t.messages[id])
  }

  /** Keys of the messages received by `me`. */
  function ReceivedIds(t: Tables, me: UserId): set<MessageId>
  {
    set id | id in t.messages && t.messages[id].receiver == me
  }

  /** `conversation_view`: the messages between `me` and `other` in either direction, oldest first. */
  ghost function ConversationView(t: Tables, me: UserId, other: UserId): (r: Result<seq<Message>, HttpError>)
    ensures r.Err? <==> other !in t.users
    ensures r.Err? ==> r.error == NotFound
    ensures r.Ok? ==> forall m :: m in r.value <==> m in t.messages.Values && InConversation(me, other, m)
    ensures r.Ok? ==> |r.value| == |ConversationIds(t, me, other)|
    ensures r.Ok? ==> forall i, j | 0 <= i < j < |r.value| :: r.value[i].timestamp <= r.value[j].timestamp
  {
    if other !in t.users then Err(NotFound)
    else
      var keep := (m: Message) => InConversation(me, other, m);
      KeptKeysAre(t.messages, keep, ConversationIds(t, me, other));
      Ok(Select(t.messages, keep, OldestFirst))
  }

  /** The context `inbox_view` renders. */
  datatype Inbox = Inbox(unreadReceived: seq<UnreadRow>, allReceived: seq<Message>, unreadCount: nat)

  /**
   * `inbox_view`: every message received by `me` newest first, the unread ones
   * as `for_user` projects them, and their number.
   */
  ghost function InboxView(t: Tables, me: UserId): (r: Inbox)
    ensures forall m :: m in r.allReceived <==> m in t.messages.Values && m.receiver == me
    ensures |r.allReceived| == |ReceivedIds(t, me)|
    ensures MessagesNewestFirst(r.allReceived)
    ensures r.unreadCount == |r.unreadReceived| == |UnreadReceivedIds(t, me)|
    ensures forall id :: id in UnreadReceivedIds(t, me) <==>
      id in t.messages && t.messages[id] in r.allReceived && !t.messages[id].read
    ensures forall i | 0 <= i < |r.unreadReceived| ::
      r.unreadReceived[i].id in UnreadReceivedIds(t, me) && r.unreadReceived[i] == Project(t.messages[r.unreadReceived[i].id])
    ensures forall id | id in UnreadReceivedIds(t, me) :: Project(t.messages[id]) in r.unreadReceived
    ensures forall i, j | 0 <= i < j < |r.unreadReceived| :: r.unreadReceived[i].timestamp >= r.unreadReceived[j].timestamp
    ensures r.unreadReceived == ForUser(t, me)
  {
    var unread := ForUser(t, me);
    var keep := (m: Message) => m.receiver == me;
    KeptKeysAre(t.messages, keep, ReceivedIds(t, me));
    Inbox(unread, Select(t.messages, keep, MessageOrder), |unread|)
  }

  /** `message_history_view`: the edit history of message `id`, newest first, for its sender or receiver only. */
  ghost function MessageHistoryView(t: Tables, id: MessageId, me: UserId): (r: Result<seq<MessageHistory>, HttpError>)
    ensures r == Err(NotFound) <==> id !in t.messages
    ensures r == Err(Forbidden) <==> id in t.messages && t.messages[id].sender != me && t.messages[id].receiver != me
    ensures r.Ok? <==> id in t.messages && (t.messages[id].sender == me || t.messages[id].receiver == me)
    ensures r.Ok? ==> forall h :: h in r.value <==> h in t.histories.Values && h.message == id
    ensures r.Ok? ==> |r.value| == |HistoryAbout(t.histories, id)|
    ensures r.Ok? ==> HistoriesNewestFirst(r.value)
  {
    if id !in t.messages then Err(NotFound)
    else if t.messages[id].sender != me && t.messages[id].receiver != me then Err(Forbidden)
    else
      var keep := (h: MessageHistory) => h.message == id;
      KeptKeysAre(t.histories, keep, HistoryAbout(t.histories, id));
      Ok(Select(t.histories, keep, HistoryOrder))
  }

  /** The guard of `edit_message_view`: a POST carrying non-empty content that differs from the current one. */
  predicate ShouldEdit(httpMethod: string, posted: Option<string>, current: string)
  {
    httpMethod == "POST" && posted.Some? && posted.value != "" && posted.value != current
  }

  /**
   * `edit_message_view`: only the sender finds the message; the new content is
   * saved, with its history row, only when `ShouldEdit` holds.
   */
  method EditMessageView(store: Store, id: MessageId, me: UserId, httpMethod: string, posted: Option<string>, now: nat)
    returns (r: Result<Message, HttpError>)
    requires store.Valid()
    requires me in store.users
    modifies store
    ensures store.Valid()
    ensures r.Err? <==> !(id in old(store.messages) && old(store.messages)[id].sender == me)
    ensures r.Err? ==> r.error == NotFound && store.Snapshot() == old(store.Snapshot())
    ensures r.Ok? && !ShouldEdit(httpMethod, posted, old(store.messages)[id].content) ==>
      r.value == old(store.messages)[id] && store.Snapshot() == old(store.Snapshot())
    ensures r.Ok? && ShouldEdit(httpMethod, posted, old(store.messages)[id].content) ==>
      && r.value == old(store.messages)[id].(content := posted.value, edited := true, editedBy := Some(me))
      && store.messages == old(store.messages)[id := r.value]
      && store.histories == old(store.histories)[old(store.nextHistoryId) :=
           MessageHistory(old(store.nextHistoryId), id, old(store.messages)[id].content, Some(me), now)]
      && store.notifications == old(store.notifications)
      && store.users == old(store.users)
  {
    if !(id in store.messages && store.messages[id].sender == me) {
      return Err(NotFound);
    }
    var message := store.messages[id];
    r := Ok(message);
    if ShouldEdit(httpMethod, posted, message.content) {
      assert MessageRefsResolve(store.Snapshot(), message);
      var saved := store.Save(message.(content := posted.value), Some(me), now);
      r := Ok(saved.value);
    }
  }

  /** `mark_as_read_view`: only the receiver finds the message; it is saved with `read` set and nothing else changes. */
  method MarkAsReadView(store: Store, id: MessageId, me: UserId, now: nat) returns (r: Result<Message, HttpError>)
    requires store.Valid()
    modifies store
    ensures store.Valid()
    ensures r.Err? <==> !(id in old(store.messages) && old(store.messages)[id].receiver == me)
    ensures r.Err? ==> r.error == NotFound && store.Snapshot() == old(store.Snapshot())
    ensures r.Ok? ==>
      && r.value == old(store.messages)[id].(read := true)
      && store.messages == old(store.messages)[id := r.value]
      && store.histories == old(store.histories)
      && store.notifications == old(store.notifications)
      && store.users == old(store.users)
  {
    if !(id in store.messages && store.messages[id].receiver == me) {
      return Err(NotFound);
    }
    var message := store.messages[id];
    assert MessageRefsResolve(store.Snapshot(), message);
    var saved := store.Save(message.(read := true), None, now);
    r := Ok(saved.value);
  }

  /** Marking the unread messages received by `me` as read leaves none unread for `me`. */
  lemma MarkAllReadLeavesNoneUnread(t: Tables, me: UserId)
    ensures UnreadReceivedIds(t.(messages := MarkRead(t.messages, UnreadReceivedIds(t, me))), me) == {}
  {
    var r := t.(messages := MarkRead(t.messages, UnreadReceivedIds(t, me)));
    forall id | id in r.messages ensures id !in UnreadReceivedIds(r, me) {
    }
  }

  /**
   * `mark_all_as_read_view`: one bulk update sets `read` on every unread message
   * received by `me`, touches nothing else, and reports how many there were.
   */
  method MarkAllAsReadView(store: Store, me: UserId) returns (count: nat)
    requires store.Valid()
    modifies store
    ensures store.Valid()
    ensures count == |UnreadReceivedIds(old(store.Snapshot()), me)|
    ensures store.messages == MarkRead(old(store.messages), UnreadReceivedIds(old(store.Snapshot()), me))
    ensures UnreadReceivedIds(store.Snapshot(), me) == {}
    ensures InboxView(store.Snapshot(), me).unreadCount == 0
    ensures store.users == old(store.users) && store.notifications == old(store.notifications)
    ensures store.histories == old(store.histories)
  {
    var ids := UnreadReceivedIds(store.Snapshot(), me);
    assert ids * store.messages.Keys == ids;
    MarkAllReadLeavesNoneUnread(store.Snapshot(), me);
    count := store.UpdateRead(ids);
  }

  /** `delete_user_view`: POST only; deletes the requesting user with every cascade and signal. */
  method DeleteUserView(store: Store, me: UserId, httpMethod: string) returns (r: Result<(), HttpError>)
    requires store.Valid()
    modifies store
    ensures store.Valid()
    ensures r.Err? <==> httpMethod != "POST"
    ensures r.Err? ==> r.error == MethodNotAllowed && store.Snapshot() == old(store.Snapshot())
    ensures r.Ok? ==> store.Snapshot() == Models.DeleteUser(old(store.Snapshot()), me)
    ensures r.Ok? ==> me !in store.users && me !in (set id | id in store.messages :: store.messages[id].sender)
    ensures r.Ok? ==> me !in (set id | id in store.messages :: store.messages[id].receiver)
    ensures r.Ok? ==> me !in (set n | n in store.notifications :: store.notifications[n].user)
  {
    if httpMethod != "POST" {
      return Err(MethodNotAllowed);
    }
    DeleteUserRemovesEveryReference(store.Snapshot(), me);
    store.DeleteUser(me);
    r := Ok(());
  }
}
