/**
 * The chat-history endpoints of server/app.py (`/chats`): filters, the
 * documents they insert or `$set`, and their error paths, over an in-memory
 * table standing for the MongoDB collection. Fresh ids and timestamps are
 * parameters.
 */
module ChatStore {
  import opened Common

  /** A key of a JSON request body: missing, or present (possibly `null`). */
  datatype Field<T> = Absent | Present(value: Option<T>)

  /** `chat_data.get(key, default)`. */
  function GetOr<T>(f: Field<T>, default: Option<T>): (r: Option<T>)
    ensures f.Absent? ==> r == default
    ensures f.Present? ==> r == f.value
  {
    match f
    case Absent => default
    case Present(v) => v
  }

  /** The body of POST and PUT; each display message is kept as the client's JSON text. */
  datatype ChatData = ChatData(userId: Field<string>, title: Field<string>, messages: Field<seq<string>>, checkpointId: Field<string>)

  /** A stored chat document. */
  datatype Chat = Chat(
    id: string,
    userId: Option<string>,
    title: Option<string>,
    messages: Option<seq<string>>,
    checkpointId: Option<string>,
    createdAt: string,
    updatedAt: string)

  /** A MongoDB equality filter on `id` and/or `user_id`; a missing key does not constrain. */
  datatype Filter = Filter(id: Option<string>, userId: Option<string>)

  predicate Matches(c: Chat, q: Filter)
    ensures q == Filter(None, None) ==> Matches(c, q)
    ensures Matches(c, q) && q.id.Some? ==> c.id == q.id.value
    ensures Matches(c, q) && q.userId.Some? ==> c.userId == q.userId
  {
    (q.id.None? || c.id == q.id.value) && (q.userId.None? || c.userId == q.userId)
  }

  /** `{"id": chat_id}` plus `user_id` only when it is truthy (get, update and delete). */
  function OwnerFilter(chatId: string, userId: Option<string>): (q: Filter)
    ensures q.id == Some(chatId)
    ensures q.userId.Some? <==> Truthy(userId)
    ensures q.userId.Some? ==> q.userId == userId
  {
    Filter(Some(chatId), if Truthy(userId) then userId else None)
  }

  /** `{"user_id": user_id}` when truthy, else `{}` (listing). */
  function ListFilter(userId: Option<string>): (q: Filter)
    ensures q.id.None?
    ensures q.userId.Some? <==> Truthy(userId)
    ensures q.userId.Some? ==> q.userId == userId
  {
    Filter(None, if Truthy(userId) then userId else None)
  }

  datatype HttpError = HttpError(status: int, detail: string)

  /**
   * The 404 raised inside the handlers' `try` is caught by their blanket
   * `except` and re-raised as a 500 whose detail is the 404's text.
   */
  const NotFoundRewrapped := HttpError(500, "404: Chat not found")

  const ListLimit := 50

  /** The position `find_one`/`update_one`/`delete_one` act on: the first match. */
  function FirstMatch(chats: seq<Chat>, q: Filter): (r: Option<nat>)
    ensures r.Some? ==> r.value < |chats| && Matches(chats[r.value], q)
    ensures r.Some? ==> forall j :: 0 <= j < r.value ==> !Matches(chats[j], q)
    ensures r.None? ==> forall j :: 0 <= j < |chats| ==> !Matches(chats[j], q)
  {
    if chats == [] then None
    else if Matches(chats[0], q) then Some(0)
    else match FirstMatch(chats[1..], q)
      case None => None
      case Some(i) => Some(i + 1)
  }

  /** All matching chats, in table order. */
  function MatchingChats(chats: seq<Chat>, q: Filter): (r: seq<Chat>)
    ensures |r| <= |chats|
    ensures forall c :: c in r <==> c in chats && Matches(c, q)
  {
    if chats == [] then []
    else
      var last := chats[|chats| - 1];
      MatchingChats(chats[..|chats| - 1], q) + (if Matches(last, q) then [last] else [])
  }

  /** get_chats: the matching chats, at most fifty (the database's ordering is not modelled). */
  function ListChats(chats: seq<Chat>, userId: Option<string>): (r: seq<Chat>)
    ensures r <= MatchingChats(chats, ListFilter(userId))
    ensures |r| == if |MatchingChats(chats, ListFilter(userId))| < ListLimit then |MatchingChats(chats, ListFilter(userId))| else ListLimit
  {
    var all := MatchingChats(chats, ListFilter(userId));
    if |all| <= ListLimit then all else all[..ListLimit]
  }

  /** get_chat: the first chat matching the owner filter, or the re-wrapped 404. */
  function FindChat(chats: seq<Chat>, chatId: string, userId: Option<string>): (r: Result<Chat, HttpError>)
    ensures r.Ok? <==> exists i :: 0 <= i < |chats| && Matches(chats[i], OwnerFilter(chatId, userId))
    ensures r.Ok? ==> r.value in chats && r.value.id == chatId && (Truthy(userId) ==> r.value.userId == userId)
    ensures r.Err? ==> r.error == NotFoundRewrapped
  {
    match FirstMatch(chats, OwnerFilter(chatId, userId))
    case None => Err(NotFoundRewrapped)
    case Some(i) => Ok(chats[i])
  }

  /** The document create_chat inserts. */
  function NewChat(data: ChatData, chatId: string, createdAt: string, updatedAt: string): (c: Chat)
    ensures c.id == chatId && c.userId == GetOr(data.userId, None) && c.checkpointId == GetOr(data.checkpointId, None)
    ensures data.title.Absent? ==> c.title == Some("New Chat")
    ensures data.messages.Absent? ==> c.messages == Some([])
    ensures data.title.Present? ==> c.title == data.title.value
    ensures data.messages.Present? ==> c.messages == data.messages.value
  {
    Chat(chatId, GetOr(data.userId, None), GetOr(data.title, Some("New Chat")), GetOr(data.messages, Some([])),
         GetOr(data.checkpointId, None), createdAt, updatedAt)
  }

  /** The `$set` document of update_chat; `title` is set only when the key was sent. */
  datatype ChatUpdate = ChatUpdate(messages: Option<seq<string>>, checkpointId: Option<string>, updatedAt: string, title: Field<string>)

  function UpdateFor(data: ChatData, now: string): (u: ChatUpdate)
    ensures data.messages.Absent? ==> u.messages.None?
    ensures data.checkpointId.Absent? ==> u.checkpointId.None?
    ensures data.messages.Present? ==> u.messages == data.messages.value
    ensures data.checkpointId.Present? ==> u.checkpointId == data.checkpointId.value
    ensures u.title == data.title && u.updatedAt == now
  {
    ChatUpdate(GetOr(data.messages, None), GetOr(data.checkpointId, None), now, data.title)
  }

  /** `$set`: the listed keys take the new values, all others stay. */
  function ApplyUpdate(c: Chat, u: ChatUpdate): (r: Chat)
    ensures r.id == c.id && r.userId == c.userId && r.createdAt == c.createdAt
    ensures r.messages == u.messages && r.checkpointId == u.checkpointId && r.updatedAt == u.updatedAt
    ensures r.title == if u.title.Present? then u.title.value else c.title
  {
    c.(messages := u.messages, checkpointId := u.checkpointId, updatedAt := u.updatedAt,
       title := if u.title.Present? then u.title.value else c.title)
  }

  /** A handler's response together with the table after it. */
  datatype Outcome = Outcome(response: Result<string, HttpError>, chats: seq<Chat>)

  /** update_chat over the table. */
  function UpdateChats(chats: seq<Chat>, chatId: string, userId: Option<string>, data: ChatData, now: string): (o: Outcome)
    ensures |o.chats| == |chats|
    ensures o.response.Err? <==> forall j :: 0 <= j < |chats| ==> !Matches(chats[j], OwnerFilter(chatId, userId))
    ensures o.response.Err? ==> o.response.error == NotFoundRewrapped && o.chats == chats
    ensures o.response.Ok? ==> o.response.value == "Chat updated successfully"
    ensures o.response.Ok? ==>
              exists i :: (0 <= i < |chats| && Matches(chats[i], OwnerFilter(chatId, userId)) &&
                           o.chats[i] == ApplyUpdate(chats[i], UpdateFor(data, now)) &&
                           forall j :: 0 <= j < |chats| && j != i ==> o.chats[j] == chats[j])
  {
    match FirstMatch(chats, OwnerFilter(chatId, userId))
    case None => Outcome(Err(NotFoundRewrapped), chats)
    case Some(i) => Outcome(Ok("Chat updated successfully"), chats[i := ApplyUpdate(chats[i], UpdateFor(data, now))])
  }

  /** delete_chat over the table. */
  function DeleteChats(chats: seq<Chat>, chatId: string, userId: Option<string>): (o: Outcome)
    ensures o.response.Err? <==> forall j :: 0 <= j < |chats| ==> !Matches(chats[j], OwnerFilter(chatId, userId))
    ensures o.response.Err? ==> o.response.error == NotFoundRewrapped && o.chats == chats
    ensures o.response.Ok? ==> o.response.value == "Chat deleted successfully" && |o.chats| == |chats| - 1
    ensures o.response.Ok? ==>
              exists i :: (0 <= i < |chats| && Matches(chats[i], OwnerFilter(chatId, userId)) &&
                           o.chats == chats[..i] + chats[i + 1..])
  {
    match FirstMatch(chats, OwnerFilter(chatId, userId))
    case None => Outcome(Err(NotFoundRewrapped), chats)
    case Some(i) => Outcome(Ok("Chat deleted successfully"), chats[..i] + chats[i + 1..])
  }

  lemma {:induction false} FirstMatchAppendMiss(chats: seq<Chat>, c: Chat, q: Filter)
    requires forall j :: 0 <= j < |chats| ==> !Matches(chats[j], q)
    requires Matches(c, q)
    ensures FirstMatch(chats + [c], q) == Some(|chats|)
  {
    if chats != [] {
      assert (chats + [c])[1..] == chats[1..] + [c];
      FirstMatchAppendMiss(chats[1..], c, q);
    }
  }

  /**
   * A created chat can be fetched back by its fresh id, by its owner or with
   * no owner filter, with the title and messages it was created with.
   */
  lemma CreateThenFind(chats: seq<Chat>, data: ChatData, freshId: string, createdAt: string, updatedAt: string, userId: Option<string>)
    requires forall j :: 0 <= j < |chats| ==> chats[j].id != freshId
    requires Truthy(userId) ==> userId == GetOr(data.userId, None)
    ensures FindChat(chats + [NewChat(data, freshId, createdAt, updatedAt)], freshId, userId) ==
            Ok(NewChat(data, freshId, createdAt, updatedAt))
  {
    FirstMatchAppendMiss(chats, NewChat(data, freshId, createdAt, updatedAt), OwnerFilter(freshId, userId));
  }

  /**
   * An update that sends only a title still overwrites `messages` and
   * `checkpoint_id` with null; one without a title keeps the old title.
   */
  lemma TitleOnlyUpdateClearsMessages(chats: seq<Chat>, chatId: string, userId: Option<string>, title: Option<string>, now: string, i: nat)
    requires i < |chats| && FirstMatch(chats, OwnerFilter(chatId, userId)) == Some(i)
    ensures var o := UpdateChats(chats, chatId, userId, ChatData(Absent, Present(title), Absent, Absent), now);
            o.chats[i].messages.None? && o.chats[i].checkpointId.None? && o.chats[i].title == title
    ensures var o := UpdateChats(chats, chatId, userId, ChatData(Absent, Absent, Absent, Absent), now);
            o.chats[i].title == chats[i].title && o.chats[i].updatedAt == now
  {
  }

  /** Owner scoping: another user's chat is never listed or fetched for a truthy user id. */
  lemma OwnerScoping(chats: seq<Chat>, c: Chat, other: Option<string>)
    requires c in chats && Truthy(other) && c.userId != other
    ensures c !in ListChats(chats, other)
    ensures FindChat(chats, c.id, other) != Ok(c)
  {
    var all, listed := MatchingChats(chats, ListFilter(other)), ListChats(chats, other);
    assert c !in all;
    assert forall x :: x in listed ==> x in all;
  }

  /** The `chats` collection. */
  class ChatTable {
    var chats: seq<Chat>

    constructor ()
      ensures chats == []
    {
      chats := [];
    }

    /** GET /chats. */
    method GetChats(userId: Option<string>) returns (r: seq<Chat>)
      ensures r == ListChats(chats, userId)
      ensures forall c :: c in r ==> c in chats && (Truthy(userId) ==> c.userId == userId)
    {
      r := ListChats(chats, userId);
    }

    /** GET /chats/{chat_id}. */
    method GetChat(chatId: string, userId: Option<string>) returns (r: Result<Chat, HttpError>)
      ensures r == FindChat(chats, chatId, userId)
    {
      var query := Filter(Some(chatId), None);
      if Truthy(userId) {
        query := query.(userId := userId);
      }
      var found := FirstMatch(chats, query);
      if found.None? {
        return Err(NotFoundRewrapped);
      }
      r := Ok(chats[found.value]);
    }

    /** POST /chats: inserts a new document under the fresh id. */
    method CreateChat(data: ChatData, freshId: string, createdAt: string, updatedAt: string) returns (id: string, message: string)
      modifies this
      ensures chats == old(chats) + [NewChat(data, freshId, createdAt, updatedAt)]
      ensures id == freshId && message == "Chat created successfully"
    {
      var chat := Chat(freshId, GetOr(data.userId, None), GetOr(data.title, Some("New Chat")),
                       GetOr(data.messages, Some([])), GetOr(data.checkpointId, None), createdAt, updatedAt);
      chats := chats + [chat];
      id, message := freshId, "Chat created successfully";
    }

    /** PUT /chats/{chat_id}. */
    method UpdateChat(chatId: string, data: ChatData, userId: Option<string>, now: string) returns (r: Result<string, HttpError>)
      modifies this
      ensures Outcome(r, chats) == UpdateChats(old(chats), chatId, userId, data, now)
    {
      var update := ChatUpdate(GetOr(data.messages, None), GetOr(data.checkpointId, None), now, data.title);
      var found := FirstMatch(chats, OwnerFilter(chatId, userId));
      if found.None? {
        return Err(NotFoundRewrapped);
      }
      chats := chats[found.value := ApplyUpdate(chats[found.value], update)];
      r := Ok("Chat updated successfully");
    }

    /** DELETE /chats/{chat_id}. */
    method DeleteChat(chatId: string, userId: Option<string>) returns (r: Result<string, HttpError>)
      modifies this
      ensures Outcome(r, chats) == DeleteChats(old(chats), chatId, userId)
    {
      var found := FirstMatch(chats, OwnerFilter(chatId, userId));
      if found.None? {
        return Err(NotFoundRewrapped);
      }
      var i := found.value;
      chats := chats[..i] + chats[i + 1..];
      r := Ok("Chat deleted successfully");
    }
  }
}
