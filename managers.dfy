/**
 * The unread-message manager (Django-signals_orm-0x04/messaging/managers.py):
 * `get_queryset` keeps the unread messages and `for_user` narrows them to one
 * receiver and projects four fields. Both keep the Message ordering, newest first.
 */
module Managers {
  import opened Models
  import opened Ordering

  /** The fields `for_user` loads with `.only('id', 'sender', 'content', 'timestamp')`. */
  datatype UnreadRow = UnreadRow(id: MessageId, sender: UserId, content: string, timestamp: nat)

  function Project(m: Message): UnreadRow
  {
    UnreadRow(m.id, m.sender, m.content, m.timestamp)
  }

  /** Ids of the unread messages. */
  function UnreadIds(t: Tables): set<MessageId>
  {
    set id | id in t.messages && !t.messages[id].read
  }

  /** Ids of the unread messages received by `u`. */
  function UnreadReceivedIds(t: Tables, u: UserId): set<MessageId>
  {
    set id | id in t.messages && !t.messages[id].read && t.messages[id].receiver == u
  }

  /** `UnreadMessagesManager.get_queryset`: exactly the unread messages, newest first. */
  ghost function GetQueryset(t: Tables): (r: seq<Message>)
    ensures |r| == |UnreadIds(t)|
    ensures forall m :: m in r <==> m in t.messages.Values && !m.read
    ensures MessagesNewestFirst(r)
  {
    var keep := (m: Message) => !m.read;
    assert KeptKeys(t.messages, keep) == UnreadIds(t);
    Select(t.messages, keep, MessageOrder)
  }

  function ProjectAll(s: seq<Message>): (r: seq<UnreadRow>)
    ensures |r| == |s|
    ensures forall i | 0 <= i < |s| :: r[i] == Project(s[i])
  {
    seq(|s|, i requires 0 <= i < |s| => Project(s[i]))
  }

  /** Projecting a list of exactly the unread messages received by `u` yields rows that resolve back to those messages. */
  lemma ProjectUnreadReceived(t: Tables, u: UserId, s: seq<Message>)
    requires forall x :: x in s <==> x in t.messages.Values && !x.read && x.receiver == u
    ensures var r := ProjectAll(s);
      && (forall i | 0 <= i < |r| :: r[i].id in UnreadReceivedIds(t, u) && r[i] == Project(t.messages[r[i].id]))
      && (forall id | id in UnreadReceivedIds(t, u) :: Project(t.messages[id]) in r)
  {
    var r := ProjectAll(s);
    forall i | 0 <= i < |r| ensures r[i].id in UnreadReceivedIds(t, u) && r[i] == Project(t.messages[r[i].id]) {
      assert s[i] in s;
      var k :| k in t.messages && t.messages[k] == s[i];
    }
    forall id | id in UnreadReceivedIds(t, u) ensures Project(t.messages[id]) in r {
      assert t.messages[id] in t.messages.Values;
      assert t.messages[id] in s;
      var i :| 0 <= i < |s| && s[i] == t.messages[id];
      assert r[i] == Project(t.messages[id]);
    }
  }

  /**
   * `UnreadMessagesManager.for_user`: one projected row per unread message received
   * by `u` and no other, newest first.
   */
  ghost function ForUser(t: Tables, u: UserId): (r: seq<UnreadRow>)
    ensures |r| == |UnreadReceivedIds(t, u)|
    ensures forall i | 0 <= i < |r| :: r[i].id in UnreadReceivedIds(t, u) && r[i] == Project(t.messages[r[i].id])
    ensures forall id | id in UnreadReceivedIds(t, u) :: Project(t.messages[id]) in r
    ensures forall i, j | 0 <= i < j < |r| :: r[i].timestamp >= r[j].timestamp
  {
    var keep := (m: Message) => !m.read && m.receiver == u;
    assert KeptKeys(t.messages, keep) == UnreadReceivedIds(t, u);
    var s := Select(t.messages, keep, MessageOrder);
    ProjectUnreadReceived(t, u, s);
    ProjectAll(s)
  }

  /** Every row `for_user` returns comes from a message `get_queryset` returns. */
  lemma ForUserWithinQueryset(t: Tables, u: UserId)
    ensures forall i | 0 <= i < |ForUser(t, u)| :: t.messages[ForUser(t, u)[i].id] in GetQueryset(t)
  {
    var r := ForUser(t, u);
    forall i | 0 <= i < |r| ensures t.messages[r[i].id] in GetQueryset(t) {
      assert r[i].id in UnreadReceivedIds(t, u);
    }
  }
}
