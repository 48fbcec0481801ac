# Messaging consistency store, middlewares, permissions and helpers — a Dafny model

This project models the messaging application of `Django-signals_orm-0x04` and
several smaller components of the same repository, and proves properties of them.

The messaging core is an in-memory database of three tables: `Message`,
`Notification` and `MessageHistory`, each keyed by id, plus the set of users.
The rules that keep these tables in step are modelled as operations of a
`Store` class:

- `save()` on a message runs the pre_save receiver, which snapshots the old
  content into a history row when the content changes. It then runs the
  post_save receiver, which notifies the receiver of a new message unless the
  message is self-addressed.
- Deleting a message cascades through its replies, notifications and history rows.
- Deleting a user first applies the database's `on_delete` rules (CASCADE and
  SET_NULL). Then it runs the three `post_delete` receivers in registration order.

Around the store sit the read paths (the unread manager and the views) and the
views that change it.

The smaller components are:

- the three request middlewares of `Django-Middleware-0x03`: the pass-through
  time restriction, the fixed-window per-address rate limiter, and the
  administrative-path role gate;
- the REST permission classes of `messaging_app/chats`;
- the `batch_process` generator;
- the `retry_on_failure` and `with_db_connection` decorators.

Files:

- `wrappers.dfy`: `Option` and `Result`.
- `ordering.dfy`: sorting a filtered table by a key, which is what an ordered
  query returns.
- `models.dfy`: the records, the tables and their referential integrity
  (`Consistent`). It also holds the reply thread of a set of messages, the
  `on_delete` effects as functions on the tables, and the default orderings.
- `managers.dfy`: the unread manager.
- `signals.dfy`: the `Store` class and the three user-cleanup receivers.
- `views.dfy`: the seven views.
- `middleware.dfy`, `permissions.dfy`, `batch_processing.dfy`, `retry.dfy`.

Modelling decisions:

- A message id of 0 stands for an instance without a primary key; stored ids are positive.
- Timestamps are natural-number ticks, and `now` is a parameter.
- The editor of a change is an explicit optional parameter: the authenticated
  current user, or none. When there is none, the receiver falls back to the
  sender (signals.py:49-50). The thread-local branch at signals.py:41-44 builds a
  fresh `local()`, which never has a request, so it never supplies an editor.
- `save()` checks the foreign keys of the row before any receiver runs. A row
  whose foreign keys do not resolve is refused with `IntegrityError`, and
  nothing changes. Saving a row with an explicit primary key that is not
  stored inserts it under that key.
- Deleting a user keeps history rows of surviving messages that the user
  edited, with `edited_by` cleared: the SET_NULL rule (models.py:41) runs
  before the receiver filter at signals.py:78, so that filter finds nothing.
- Refusals in `mark_as_read_view` and `edit_message_view` are 404s from
  `get_object_or_404` (views.py:74, 120).
- The views call manager and model methods that do not exist:
  - `Message.unread`, `unread_for_user`, `unread_received_for_user` (views.py:40, 53, 88);
  - `mark_as_read` (views.py:75).

  As written, each of these views raises `AttributeError`. The model gives them
  the intended meaning instead:
  - the unread messages received by the requesting user (`unread_objects.for_user`, managers.py:7-10);
  - saving the message with `read` set.

## Model

| member | source | states |
|---|---|---|
| Models.Thread | Django-signals_orm-0x04/messaging/models.py:14 | the messages removed with a set of roots include the roots, stay within the table and contain every reply of every member |
| Models.ThreadIsLeast | Django-signals_orm-0x04/messaging/models.py:14 | that set is the least reply-closed set containing the roots, so nothing but replies of replies is removed |
| Models.DeleteMessagesCascades | Django-signals_orm-0x04/messaging/models.py:14-39 | deleting messages removes exactly their reply threads, and the notifications and history rows of removed messages; every other row is kept unchanged, users stay, and integrity holds |
| Models.DeleteUserRemovesEveryReference | Django-signals_orm-0x04/messaging/models.py:7-41 | after the `on_delete` rules for a user run, integrity holds and no message, notification or history row refers to that user |
| Models.DeleteUserNullsEditors | Django-signals_orm-0x04/messaging/models.py:13-41 | the `on_delete` rules remove only the user from the users and exactly the threads of the user's messages; surviving messages and their history rows are kept, with only an `edited_by` naming the user cleared; every notification of another user about a surviving message is kept unchanged |
| Models.DeleteUserAbsent | Django-signals_orm-0x04/messaging/models.py:7-41 | deleting a user that is not there changes nothing |
| Models.DeleteUserIdempotent | Django-signals_orm-0x04/messaging/models.py:7-41 | deleting the same user twice equals deleting them once |
| Models.AllMessages | Django-signals_orm-0x04/messaging/models.py:20-21 | the default message query holds every message once, newest first |
| Models.AllNotifications | Django-signals_orm-0x04/messaging/models.py:32-33 | the default notification query holds every notification once, newest first |
| Models.AllHistories | Django-signals_orm-0x04/messaging/models.py:44-45 | the default history query holds every history row once, newest first |
| Managers.GetQueryset | Django-signals_orm-0x04/messaging/managers.py:4-5 | exactly the unread messages, each once, newest first |
| Managers.ForUser | Django-signals_orm-0x04/messaging/managers.py:7-10 | exactly the unread messages received by the user, projected to id, sender, content and timestamp, newest first |
| Managers.ForUserWithinQueryset | Django-signals_orm-0x04/messaging/managers.py:7-8 | every row of `for_user` comes from a message in `get_queryset` |
| Signals.Store.CreateNotificationOnNewMessage | Django-signals_orm-0x04/messaging/signals.py:7-16 | a created, non-self-addressed message adds exactly one unread notification for its receiver about it; otherwise the notifications are unchanged |
| Signals.Store.LogMessageEdit | Django-signals_orm-0x04/messaging/signals.py:18-60 | a content change on a stored message adds one history row holding the stored pre-edit content and the resolved editor, and marks the instance edited by that editor; no key, an unknown key or unchanged content leaves history and instance as they were |
| Signals.Store.Save | Django-signals_orm-0x04/messaging/signals.py:7-60 | saving fails exactly when a foreign key does not resolve, and then changes nothing; otherwise it updates or inserts the row, logs the edit as above, and notifies only on insert |
| Signals.Store.CreateMessage | Django-signals_orm-0x04/messaging/signals.py:12-16 | a created message is unread, unedited and has no editor (models.py:11-13); exactly one notification refers to it when sender and receiver differ and none otherwise; it fails exactly when the sender, receiver or parent does not exist |
| Signals.Store.DeleteMessage | Django-signals_orm-0x04/messaging/models.py:14-39 | deleting a message leaves the store equal to the cascade of `Models.DeleteMessages`, with integrity kept |
| Signals.Store.ApplyUserOnDelete | Django-signals_orm-0x04/messaging/models.py:7-41 | the database's `on_delete` effects of deleting a user, with integrity kept |
| Signals.Store.CleanupUserData | Django-signals_orm-0x04/messaging/signals.py:62-87 | the receiver's filter-deletes in order: sent, received, owned notifications, edited histories, then histories of the remaining involved messages if any; the result equals the intended cleanup |
| Signals.Store.CleanupUserDataAlternative | Django-signals_orm-0x04/messaging/signals.py:89-132 | the same four deletes followed by the sweep of history rows whose message is gone |
| Signals.Store.ComprehensiveUserDataCleanup | Django-signals_orm-0x04/messaging/signals.py:134-188 | the same net effect as `cleanup_user_data`, the id list kept as a set; the result equals the intended cleanup |
| Signals.CleanupKeepsConsistency | Django-signals_orm-0x04/messaging/signals.py:62-188 | each receiver keeps referential integrity (no orphaned history row) and only removes rows |
| Signals.UserCleanupIsNoOp | Django-signals_orm-0x04/messaging/signals.py:71-87 | once the user is gone, the id lists at lines 82-83 are empty and every receiver deletes nothing, so the cleanup is idempotent |
| Signals.CleanupIdListsAlwaysEmpty | Django-signals_orm-0x04/messaging/signals.py:71-87 | for any tables, after the four shared deletes no message sent or received by the user, no notification of the user and no history row edited by the user remains, so the id lists at lines 82-83 and 178-179 are empty and `cleanup_user_data` equals the shared deletes |
| Signals.SurvivorsUninvolved | Django-signals_orm-0x04/messaging/signals.py:71-72 | no message the user sent or received survives the two message deletes |
| Signals.IntendedCleanupUserDataEffect | Django-signals_orm-0x04/messaging/signals.py:80-87 | with the ids taken before the message deletes, no history row about a message the user sent or received remains |
| Signals.IntendedCleanupMatchesWritten | Django-signals_orm-0x04/messaging/signals.py:80-87 | under referential integrity the intended cleanup and the written one give the same tables |
| Signals.Store.DeleteUser | Django-signals_orm-0x04/messaging/signals.py:62-188 | deleting a user, `on_delete` rules first and then the three receivers, leaves exactly the state the `on_delete` rules produce |
| Signals.Store.UpdateRead | Django-signals_orm-0x04/messaging/views.py:89 | the bulk update sets `read` on the matched rows only and returns their number |
| Signals.MarkReadConsistent | Django-signals_orm-0x04/messaging/views.py:89 | marking messages read keeps every key and integrity, and changes nothing but the `read` flag of the chosen rows |
| Views.ConversationView | Django-signals_orm-0x04/messaging/views.py:12-32 | an unknown other user is not found; otherwise exactly the messages between the two users in either direction, each once, oldest first |
| Views.InboxView | Django-signals_orm-0x04/messaging/views.py:47-67 | all messages received by the user, each once, newest first, every unread received message projected once as `for_user` gives it, newest first and nothing else, and the unread count equal to the number of unread received messages |
| Views.MarkAsReadView | Django-signals_orm-0x04/messaging/views.py:69-80 | only the receiver finds the message; it is stored with `read` set and no notification or history row is added |
| Views.MarkAllAsReadView | Django-signals_orm-0x04/messaging/views.py:82-92 | every unread message received by the user becomes read and nothing else changes; the count equals the number previously unread, and the inbox then shows none unread |
| Views.MarkAllReadLeavesNoneUnread | Django-signals_orm-0x04/messaging/views.py:88-89 | after marking the user's unread received messages read, none is left unread for that user |
| Views.MessageHistoryView | Django-signals_orm-0x04/messaging/views.py:94-113 | an unknown message is not found, anyone but its sender or receiver is forbidden, the sender or receiver always gets the history, which is exactly its history rows, each once, newest first |
| Views.EditMessageView | Django-signals_orm-0x04/messaging/views.py:115-131 | only the sender finds the message; a POST with non-empty, different content stores it edited by that user with one history row of the old content, and anything else changes nothing |
| Views.DeleteUserView | Django-signals_orm-0x04/messaging/views.py:133-142 | any method but POST is refused without change; a POST deletes the requesting user so that no row refers to them |
| Middleware.RestrictAccessByTime | Django-Middleware-0x03/chats/middleware.py:22-29 | every request is handed on |
| Middleware.FirstField | Django-Middleware-0x03/chats/middleware.py:61 | the first field is a comma-free prefix that ends at the first comma or at the end of the text |
| Middleware.FirstFieldOfJoined | Django-Middleware-0x03/chats/middleware.py:61 | the first field of `a,b` is `a` when `a` has no comma |
| Middleware.GetClientIp | Django-Middleware-0x03/chats/middleware.py:58-64 | a non-empty forwarded-for header gives its unstripped first field, the whole prefix up to the first comma or the end; otherwise `REMOTE_ADDR`, or nothing |
| Middleware.ClientIpOfProxyChain | Django-Middleware-0x03/chats/middleware.py:58-64 | a forwarded-for chain is attributed to its first hop |
| Middleware.Admit | Django-Middleware-0x03/chats/middleware.py:43-51 | a missing record or an expired window accepts with count 1 from now; within the window a POST is rejected exactly when the count has reached the limit of 5, and otherwise the count grows by one |
| Middleware.AdmitKeepsCountInRange | Django-Middleware-0x03/chats/middleware.py:46-53 | a stored count never exceeds the limit |
| Middleware.AtMostLimitPerWindow | Django-Middleware-0x03/chats/middleware.py:35-53 | within one 60-tick window at most 5 POSTs from one address are accepted |
| Middleware.RateLimiter.Call | Django-Middleware-0x03/chats/middleware.py:38-56 | other methods leave the cache alone and pass; a rejected POST is refused without change; an accepted one stores the new record under its address |
| Middleware.AnyPrefix | Django-Middleware-0x03/chats/middleware.py:76 | true exactly when some listed prefix starts the path |
| Middleware.RolePermission | Django-Middleware-0x03/chats/middleware.py:71-89 | unprotected paths pass; on a protected path an anonymous user is refused, and an authenticated user passes exactly when staff, superuser or moderator |
| Middleware.PublicPathsPass | Django-Middleware-0x03/chats/middleware.py:73-84 | a path under no administrative prefix is always handed on |
| Permissions.ParticipantHasPermission | messaging_app/chats/permissions.py:10-30 | anonymous users are refused; safe methods and methods other than POST pass; a POST passes exactly when it names an existing conversation the user takes part in (looked up by primary key) |
| Permissions.ParticipantHasPermissionAsWritten | messaging_app/chats/permissions.py:20-28 | as written, every authenticated POST naming a conversation raises; every other request gets the corrected decision |
| Permissions.ParticipantPostRaisesAsWritten | messaging_app/chats/permissions.py:24 | a participant posting to their own conversation raises as written but is admitted by the corrected lookup |
| Permissions.ParticipantHasObjectPermission | messaging_app/chats/permissions.py:32-40 | granted exactly for a message of a conversation the authenticated user takes part in |
| Permissions.OwnerHasPermission | messaging_app/chats/permissions.py:51-53 | granted exactly to authenticated users |
| Permissions.OwnerHasObjectPermission | messaging_app/chats/permissions.py:55-64 | safe methods exactly for participants, PUT/PATCH/DELETE exactly for the sender, anything else refused |
| Permissions.OwnershipOutlivesParticipation | messaging_app/chats/permissions.py:57-62 | a sender outside the conversation may delete the message but not read it |
| Permissions.ConversationHasPermission | messaging_app/chats/permissions.py:75-77 | granted exactly to authenticated users |
| Permissions.ConversationHasObjectPermission | messaging_app/chats/permissions.py:79-81 | granted exactly to participants |
| Permissions.ObjectGrantsNeedAuthentication | messaging_app/chats/permissions.py:32-81 | no object check grants anything to the anonymous user |
| BatchProcessing.BatchProcess | python-generators-0x00/1-batch_processing.py:33-45 | a zero size fails as `range` does, a negative size yields nothing, a positive one yields the batches |
| BatchProcessing.BatchesFlatten | python-generators-0x00/1-batch_processing.py:44-45 | the batches concatenate back to the input |
| BatchProcessing.BatchSizes | python-generators-0x00/1-batch_processing.py:44-45 | every batch is non-empty and at most the size; all but the last are full |
| BatchProcessing.BatchCount | python-generators-0x00/1-batch_processing.py:44 | the number of batches is the ceiling of length over size; empty input yields none |
| BatchProcessing.BatchAt | python-generators-0x00/1-batch_processing.py:44-45 | batch k is the slice from k times the size to the next multiple, cut at the end |
| Retry.RetryOnFailure | python-decorators-0x01/3-retry_on_failure.py:20-35 | with no attempts allowed nothing is called; otherwise at most `retries` calls, all but the last failed with OperationalError, the last call's outcome is the result, an OperationalError is re-raised only after the last allowed attempt, and there is one delay between consecutive attempts |
| Retry.RetryReturnsFirstSuccess | python-decorators-0x01/3-retry_on_failure.py:25-27 | the value of the first call that returns after only OperationalErrors is the result |
| Retry.FetchWithRetry | python-decorators-0x01/3-retry_on_failure.py:7-17 | the connection opened for the call is closed however the retried call ends, and the result is the retry's |

## Left out

- Querysets, SQL, `.only()`, `select_related` and `prefetch_related`: the store is a set of maps, and each operation is atomic and sequential. Concurrent edits and their interleavings are not modelled.
- `Signals.Store.Save`: the foreign-key check runs before the pre_save receiver. In Django the history row written by pre_save (signals.py:52-56) is not part of the refused write, so a save refused by the database can leave that row behind; the model does not capture this.
- `Signals.Store.LogMessageEdit`: the ambient current-user lookups (crum, thread locals, signals.py:33-46) are an explicit optional parameter instead.
- The `print` logging and the exception swallowing in the cleanup receivers (signals.py:95-132, 143-188) are left out. Only the net state change of each receiver is modelled.
- Rendering, redirects, JSON bodies, flash messages, `cache_page` and `login_required` are left out. A view's outcome is its data or an HTTP error. `unread_messages_view` (views.py:34-45) is left out: it only renders the same unread selection that `InboxView` returns.
- `Middleware.RateLimiter.Call`: the cache TTL is not modelled. Entries never expire on their own; only the window test resets them. Wall-clock floats are integer ticks.
- `Middleware.FirstField`: strings are sequences of characters. Header values are assumed to be strings.
- `RequestLoggingMiddleware` is left out because it only logs.
- `Permissions.ParticipantHasPermission`: the UUID parsing of the conversation key is not modelled. Keys are plain strings, and request data values are strings or absent.
- `process_batch` and `main` in 1-batch_processing.py, and `time.sleep` in 3-retry_on_failure.py, are I/O and are left out. Delays are counted as `sleeps`.
- `Retry.RetryOnFailure`: the wrapped function is given as its sequence of call outcomes. Its arguments are not modelled.
- The other generator and database-helper files, the chats views, filters, serializers and admin, the settings and the tests are not part of this model.

## Findings

| source | as written | input that shows it | evidently intended | confidence | as-written member | corrected member |
|---|---|---|---|---|---|---|
| messaging_app/chats/permissions.py:24 | the conversation is fetched with `Conversation.objects.get(id=...)`, but the model's primary key is `conversation_id` and it has no `id` field (messaging_app/chats/models.py:15-17), so the lookup raises `FieldError`, which the `DoesNotExist` handler does not catch | an authenticated participant posts `{"conversation_id": "c1"}` for an existing conversation `c1` (lemma `ParticipantPostRaisesAsWritten`) | look the conversation up by its primary key and admit participants | high (not executed) | Permissions.ParticipantHasPermissionAsWritten | Permissions.ParticipantHasPermission |
| Django-signals_orm-0x04/messaging/signals.py:82-87 | the ids of the messages the user sent or received are collected (here and again at lines 178-185) after those messages were deleted at lines 71-72 and 145-153, so the lists are always empty and the guarded history deletes never run | any user and any tables (lemma `CleanupIdListsAlwaysEmpty`) | collect the ids before deleting the messages, so that their history rows go; the `CASCADE` from history to message (models.py:39) already removes those rows, so the result is the same | high (not executed) | Signals.CleanupUserDataEffect | Signals.IntendedCleanupUserDataEffect |
