/**
 * The REST permission classes of the chats API (messaging_app/chats/permissions.py)
 * as decision functions over the request method, the requesting user, the
 * request body and the conversations they refer to.
 */
module Permissions {
  import opened Wrappers

  type UserId = nat

  /** A conversation and its participants; conversations are keyed by their `conversation_id`. */
  datatype Conversation = Conversation(participants: set<UserId>)

  /** A chat message: the conversation it belongs to and its sender. */
  datatype ChatMessage = ChatMessage(conversation: Conversation, sender: UserId)

  /** The object a permission is checked on. */
  datatype Obj = MessageObj(message: ChatMessage) | ConversationObj(conversation: Conversation)

  /** `user` is `None` for the anonymous user; `data` is the parsed request body. */
  datatype Request = Request(user: Option<UserId>, httpMethod: string, data: map<string, string>)

  /** The exception a lookup on a field the model does not have raises. */
  datatype LookupError = FieldError

  /** `permissions.SAFE_METHODS` */
  predicate IsSafe(httpMethod: string)
  {
    httpMethod in {"GET", "HEAD", "OPTIONS"}
  }

  /** `request.user in participants.all()`: the anonymous user is never a participant. */
  predicate Participates(user: Option<UserId>, c: Conversation)
  {
    user.Some? && user.value in c.participants
  }

  /** `request.data.get('conversation_id') or request.data.get('conversation')`, with "" for a falsy result. */
  function ConversationIdOf(data: map<string, string>): string
  {
    if "conversation_id" in data && data["conversation_id"] != "" then data["conversation_id"]
    else if "conversation" in data then data["conversation"]
    else ""
  }

  /**
   * `IsAuthenticatedAndParticipant.has_permission` with the conversation looked
   * up by its primary key: anonymous users are refused, safe methods and
   * methods other than POST pass, and a POST passes exactly when it names an
   * existing conversation its user takes part in.
   */
  function ParticipantHasPermission(request: Request, conversations: map<string, Conversation>): (r: bool)
    ensures request.user.None? ==> !r
    ensures request.user.Some? && IsSafe(request.httpMethod) ==> r
    ensures request.user.Some? && !IsSafe(request.httpMethod) && request.httpMethod != "POST" ==> r
    ensures request.user.Some? && request.httpMethod == "POST" ==>
      var id := ConversationIdOf(request.data);
      (r <==> id != "" && id in conversations && Participates(request.user, conversations[id]))
  {
    if request.user.None? then false
    else if IsSafe(request.httpMethod) then true
    else if request.httpMethod == "POST" then
      var id := ConversationIdOf(request.data);
      if id != "" then id in conversations && Participates(request.user, conversations[id])
      else false
    else true
  }

  /**
   * `IsAuthenticatedAndParticipant.has_permission` as written: the lookup by a
   * field named `id`, which a model whose primary key is `conversation_id`
   * does not have, raises on every POST that names a conversation.
   */
  function ParticipantHasPermissionAsWritten(request: Request, conversations: map<string, Conversation>): (r: Result<bool, LookupError>)
    ensures r.Err? <==> request.user.Some? && !IsSafe(request.httpMethod) && request.httpMethod == "POST"
                        && ConversationIdOf(request.data) != ""
    ensures r.Ok? ==> r.value == ParticipantHasPermission(request, conversations)
  {
    if request.user.None? then Ok(false)
    else if IsSafe(request.httpMethod) then Ok(true)
    else if request.httpMethod == "POST" then
      if ConversationIdOf(request.data) != "" then Err(FieldError)
      else Ok(false)
    else Ok(true)
  }

  /** A participant posting to their own conversation is refused with an error as written, and admitted by the lookup on the primary key. */
  lemma ParticipantPostRaisesAsWritten()
    ensures var conversations := map["c1" := Conversation({7})];
            var request := Request(Some(7), "POST", map["conversation_id" := "c1"]);
            && ParticipantHasPermissionAsWritten(request, conversations) == Err(FieldError)
            && ParticipantHasPermission(request, conversations)
  {
    var conversations := map["c1" := Conversation({7})];
    var request := Request(Some(7), "POST", map["conversation_id" := "c1"]);
    assert ConversationIdOf(request.data) == "c1";
  }

  /** `IsAuthenticatedAndParticipant.has_object_permission`: only messages of a conversation the user takes part in. */
  function ParticipantHasObjectPermission(request: Request, obj: Obj): (r: bool)
    ensures r <==> obj.MessageObj? && request.user.Some? && request.user.value in obj.message.conversation.participants
  {
    if request.user.None? then false
    else if obj.MessageObj? then Participates(request.user, obj.message.conversation)
    else false
  }

  /** `IsMessageOwnerOrParticipant.has_permission`: authenticated users only. */
  function OwnerHasPermission(request: Request): (r: bool)
    ensures r <==> request.user.Some?
  {
    request.user.Some?
  }

  /**
   * `IsMessageOwnerOrParticipant.has_object_permission`: participants may read,
   * only the sender may update or delete, and any other method is refused.
   */
  function OwnerHasObjectPermission(request: Request, message: ChatMessage): (r: bool)
    ensures r ==> request.user.Some?
    ensures IsSafe(request.httpMethod) ==> (r <==> Participates(request.user, message.conversation))
    ensures request.httpMethod in {"PUT", "PATCH", "DELETE"} ==> (r <==> request.user == Some(message.sender))
    ensures !IsSafe(request.httpMethod) && request.httpMethod !in {"PUT", "PATCH", "DELETE"} ==> !r
  {
    if IsSafe(request.httpMethod) then Participates(request.user, message.conversation)
    else if request.httpMethod in {"PUT", "PATCH", "DELETE"} then request.user == Some(message.sender)
    else false
  }

  /** A sender who has left the conversation may still delete the message but no longer read it. */
  lemma OwnershipOutlivesParticipation(user: UserId, message: ChatMessage)
    requires message.sender == user && user !in message.conversation.participants
    ensures OwnerHasObjectPermission(Request(Some(user), "DELETE", map[]), message)
    ensures !OwnerHasObjectPermission(Request(Some(user), "GET", map[]), message)
  {
  }

  /** `ConversationPermissions.has_permission`: authenticated users only. */
  function ConversationHasPermission(request: Request): (r: bool)
    ensures r <==> request.user.Some?
  {
    request.user.Some?
  }

  /** `ConversationPermissions.has_object_permission`: participants only, whatever the method. */
  function ConversationHasObjectPermission(request: Request, c: Conversation): (r: bool)
    ensures r <==> request.user.Some? && request.user.value in c.participants
  {
    Participates(request.user, c)
  }

  /** Every object-level grant goes to an authenticated user. */
  lemma ObjectGrantsNeedAuthentication(request: Request, obj: Obj, message: ChatMessage, c: Conversation)
    requires request.user.None?
    ensures !ParticipantHasObjectPermission(request, obj)
    ensures !OwnerHasObjectPermission(request, message)
    ensures !ConversationHasObjectPermission(request, c)
  {
  }
}
