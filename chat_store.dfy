/** The stateful side of backend/server.py over an in-memory store: the
    `messages` table as a sequence of rows in creation order, and the
    `conversations` and `user_profiles` tables as maps. The `chat` handler is
    modelled step by step on it, with the chat model, the extraction model and
    JSON decoding as parameters. */
module ChatStore {
  import opened Wrappers
  import opened ProfileUtils
  import opened Server

  /** A `messages` row; its id and timestamp are left out, since rows are kept
      in creation order. */
  datatype Message = Message(conversationId: string, role: string, content: string, userId: Option<string>)

  /** The body of `POST /api/chat`. */
  datatype ChatIn = ChatIn(message: string, conversationId: Option<string>)

  /** The reply of `POST /api/chat`. */
  datatype ChatOut = ChatOut(reply: string, conversationId: string)

  /** The profile `ensure_profile` creates: both fields null. */
  const NewProfile: Profile := map[FitnessGoals := None, DietaryRestrictions := None]

  const DefaultTitle: string := "New conversation"

  /** `title or "New conversation"`. */
  function TitleOrDefault(title: Option<string>): string {
    if title.None? || title.value == "" then DefaultTitle else title.value
  }

  /** The user id `insert_message` stores: `if user_id: payload["user_id"] = user_id`. */
  function StoredUserId(userId: Option<string>): Option<string> {
    if userId.Some? && userId.value != "" then userId else None
  }

  /** `if body.conversation_id:`. */
  predicate NamesConversation(body: ChatIn) {
    body.conversationId.Some? && body.conversationId.value != ""
  }

  /** The conversation a chat turn goes to: the one named, or a new one. */
  function TargetConversation(body: ChatIn, freshId: string): string {
    if NamesConversation(body) then body.conversationId.value else freshId
  }

  /** The profile table after `ensure_profile(user_id)`. */
  function WithProfile(profiles: map<string, Profile>, userId: string): (r: map<string, Profile>)
    ensures userId in r && r.Keys == profiles.Keys + {userId}
    ensures forall u :: u in profiles ==> r[u] == profiles[u]
  {
    if userId in profiles then profiles else profiles[userId := NewProfile]
  }

  /** The profile `ensure_profile(user_id)` returns. */
  function ProfileOf(profiles: map<string, Profile>, userId: string): Profile {
    if userId in profiles then profiles[userId] else NewProfile
  }

  /** The row `chat` stores for the user's message. */
  function UserMessage(conversationId: string, message: string, userId: string): Message {
    Message(conversationId, "user", message, StoredUserId(Some(userId)))
  }

  /** What the chat model answers in a turn: it sees the conversation's
      history, which ends with the user's message, and the system instruction
      built from the user's profile. */
  function TurnOutcome(messages: seq<Message>, profiles: map<string, Profile>, userId: string,
                       conversationId: string, message: string, systemPrompt: string,
                       chatModel: (seq<HistoryEntry>, string) -> ModelOutcome): ModelOutcome
  {
    chatModel(ChatContext(messages + [UserMessage(conversationId, message, userId)], conversationId),
              SystemInstruction(systemPrompt, ProfileOf(profiles, userId)))
  }

  /** The conversations table after `touch_conversation(conversationId, preview)`
      on an existing conversation: only its preview changes. */
  function Touched(conversations: map<string, Conversation>, conversationId: string, preview: string): (r: map<string, Conversation>)
    requires conversationId in conversations
    ensures r.Keys == conversations.Keys
    ensures forall id :: id in conversations && id != conversationId ==> r[id] == conversations[id]
    ensures var c := conversations[conversationId];
      r[conversationId] == Conversation(c.id, c.userId, c.title, Some(Snippet(preview)))
  {
    conversations[conversationId := conversations[conversationId].(lastMessagePreview := Some(Snippet(preview)))]
  }

  /** Touching a conversation twice leaves the second preview. */
  lemma TouchedTwice(conversations: map<string, Conversation>, conversationId: string, first: string, second: string)
    requires conversationId in conversations
    ensures Touched(Touched(conversations, conversationId, first), conversationId, second)
      == Touched(conversations, conversationId, second)
  {
  }

  /** The conversations table after the first step of `chat`: unchanged for a
      named conversation, with the new conversation added otherwise. */
  function Opened(conversations: map<string, Conversation>, userId: string, body: ChatIn, freshId: string): map<string, Conversation> {
    if NamesConversation(body) then conversations
    else conversations[freshId := Conversation(freshId, userId, TitleOrDefault(None), None)]
  }

  function RowOf(m: Message): Row {
    Row(Some(m.role), Some(m.content))
  }

  /** The rows of one conversation, in creation order. */
  function ConversationRows(messages: seq<Message>, conversationId: string): seq<Row> {
    if messages == [] then []
    else
      var last := messages[|messages| - 1];
      ConversationRows(messages[..|messages| - 1], conversationId)
        + (if last.conversationId == conversationId then [RowOf(last)] else [])
  }

  /** The history `fetch_history` returns for a conversation. */
  function ChatContext(messages: seq<Message>, conversationId: string): seq<HistoryEntry> {
    HistoryOf(Newest(ConversationRows(messages, conversationId)))
  }

  /** Because `chat` stores the user's message before it reads the history, the
      history the model sees ends with that message and stays within the
      window. */
  lemma ContextEndsWithUserMessage(messages: seq<Message>, conversationId: string, text: string, userId: Option<string>)
    ensures var h := ChatContext(messages + [Message(conversationId, "user", text, userId)], conversationId);
      && 1 <= |h| <= HistoryLimit
      && h[|h| - 1] == HistoryEntry("user", [text])
  {
    var all := messages + [Message(conversationId, "user", text, userId)];
    assert all[..|all| - 1] == messages;
    var rows := ConversationRows(messages, conversationId);
    assert ConversationRows(all, conversationId) == rows + [Row(Some("user"), Some(text))];
    HistoryEndsWithNewest(rows, text);
    HistoryWindow(rows + [Row(Some("user"), Some(text))]);
  }

  /** Messages of other conversations never enter a conversation's history. */
  lemma {:induction false} OtherConversationsIgnored(messages: seq<Message>, m: Message, conversationId: string)
    requires m.conversationId != conversationId
    ensures ConversationRows(messages + [m], conversationId) == ConversationRows(messages, conversationId)
  {
    assert (messages + [m])[..|messages|] == messages;
  }

  /** The `messages` table after `delete().eq("conversation_id", conversationId)`. */
  function WithoutConversation(messages: seq<Message>, conversationId: string): seq<Message> {
    if messages == [] then []
    else
      var last := messages[|messages| - 1];
      WithoutConversation(messages[..|messages| - 1], conversationId)
        + (if last.conversationId == conversationId then [] else [last])
  }

  /** Deleting a conversation's messages empties its history and leaves every
      other conversation's rows as they were. */
  lemma {:induction false} DeleteConversationRows(messages: seq<Message>, deleted: string, conversationId: string)
    ensures ConversationRows(WithoutConversation(messages, deleted), conversationId)
      == if conversationId == deleted then [] else ConversationRows(messages, conversationId)
  {
    if messages != [] {
      var init := messages[..|messages| - 1];
      var last := messages[|messages| - 1];
      DeleteConversationRows(init, deleted, conversationId);
      var kept := WithoutConversation(init, deleted);
      assert ConversationRows(messages, conversationId)
        == ConversationRows(init, conversationId) + (if last.conversationId == conversationId then [RowOf(last)] else []);
      if last.conversationId != deleted {
        assert WithoutConversation(messages, deleted) == kept + [last];
        assert (kept + [last])[..|kept|] == kept;
      } else {
        assert WithoutConversation(messages, deleted) == kept + [] == kept;
        assert ConversationRows(init, conversationId) + [] == ConversationRows(init, conversationId);
      }
    }
  }

  class Store {
    var messages: seq<Message>
    var conversations: map<string, Conversation>
    var profiles: map<string, Profile>

    constructor ()
      ensures messages == [] && conversations == map[] && profiles == map[]
    {
      messages := [];
      conversations := map[];
      profiles := map[];
    }

    /** `ensure_profile`: the stored profile, created empty on first use. */
    method EnsureProfile(userId: string) returns (profile: Profile)
      modifies this`profiles
      ensures profiles == WithProfile(old(profiles), userId)
      ensures profile == profiles[userId] == ProfileOf(old(profiles), userId)
    {
      if userId in profiles {
        return profiles[userId];
      }
      profiles := profiles[userId := NewProfile];
      profile := NewProfile;
    }

    /** `update_profile`: merges the updates into the stored profile. When the
        user has no profile yet, the update matches no row, so the profile is
        created empty and the updates are not written. */
    method UpdateProfile(userId: string, updates: Updates) returns (profile: Profile)
      modifies this`profiles
      ensures userId in old(profiles) ==> profiles == old(profiles)[userId := Merge(old(profiles)[userId], updates)]
      ensures userId !in old(profiles) ==> profiles == old(profiles)[userId := NewProfile]
      ensures profile == profiles[userId]
    {
      if userId in profiles {
        profile := Merge(profiles[userId], updates);
        profiles := profiles[userId := profile];
      } else {
        profile := EnsureProfile(userId);
      }
    }

    /** `put_profile`: the fields sent as `None` are dropped; with none left the
        existing profile is returned and nothing is written, otherwise exactly
        the remaining fields are written. */
    method PutProfile(userId: string, payload: ProfilePayload) returns (profile: Profile)
      modifies this`profiles
      ensures PayloadUpdates(payload) == map[] ==>
        profiles == if userId in old(profiles) then old(profiles) else old(profiles)[userId := NewProfile]
      ensures PayloadUpdates(payload) != map[] && userId in old(profiles) ==>
        profiles == old(profiles)[userId := Merge(old(profiles)[userId], PayloadUpdates(payload))]
      ensures PayloadUpdates(payload) != map[] && userId !in old(profiles) ==>
        profiles == old(profiles)[userId := NewProfile]
      ensures profile == profiles[userId]
    {
      var updates := PayloadUpdates(payload);
      if updates == map[] {
        profile := EnsureProfile(userId);
      } else {
        profile := UpdateProfile(userId, updates);
      }
    }

    /** `create_conversation`, with the fresh `uuid4` id as a parameter. */
    method CreateConversation(userId: string, freshId: string, title: Option<string>) returns (conversation: Conversation)
      requires freshId !in conversations
      modifies this`conversations
      ensures conversation == Conversation(freshId, userId, TitleOrDefault(title), None)
      ensures conversations == old(conversations)[freshId := conversation]
    {
      conversation := Conversation(freshId, userId, TitleOrDefault(title), None);
      conversations := conversations[freshId := conversation];
    }

    /** `ensure_conversation_owner`. */
    function OwnedBy(userId: string, conversationId: string): (r: Result<Conversation, HttpError>)
      reads this
      ensures r.Success? <==> conversationId in conversations && conversations[conversationId].userId == userId
    {
      OwnedConversation(if conversationId in conversations then Some(conversations[conversationId]) else None, userId)
    }

    /** `insert_message`: appends one row. */
    method InsertMessage(conversationId: string, role: string, content: string, userId: Option<string>)
      modifies this`messages
      ensures messages == old(messages) + [Message(conversationId, role, content, StoredUserId(userId))]
    {
      messages := messages + [Message(conversationId, role, content, StoredUserId(userId))];
    }

    /** `touch_conversation`: stores the first 140 characters of the preview on
        the conversation, if it exists. */
    method TouchConversation(conversationId: string, preview: string)
      modifies this`conversations
      ensures conversations == if conversationId in old(conversations)
        then old(conversations)[conversationId := old(conversations)[conversationId].(lastMessagePreview := Some(Snippet(preview)))]
        else old(conversations)
    {
      if conversationId in conversations {
        var c := conversations[conversationId];
        conversations := conversations[conversationId := c.(lastMessagePreview := Some(Snippet(preview)))];
      }
    }

    /** `fetch_history` over the stored rows. */
    method FetchHistory(conversationId: string) returns (r: Result<seq<HistoryEntry>, HttpError>)
      ensures r == Success(ChatContext(messages, conversationId))
    {
      var rows := ConversationRows(messages, conversationId);
      r := Server.FetchHistory(Response(None, Some(HistoryQuery(rows))));
      HistoryWindow(rows);
    }

    /** `get_conversation_messages`: the history of a conversation the user
        owns, 404 for any other. */
    method ConversationMessages(userId: string, conversationId: string) returns (r: Result<seq<HistoryEntry>, HttpError>)
      ensures OwnedBy(userId, conversationId).Failure? ==> r == Failure(HttpError(404, "Conversation not found"))
      ensures OwnedBy(userId, conversationId).Success? ==>
        r == Success(ChatContext(messages, conversationId)) && |r.value| <= HistoryLimit
    {
      var owned := OwnedBy(userId, conversationId);
      if owned.Failure? {
        return Failure(owned.error);
      }
      r := FetchHistory(conversationId);
      HistoryWindow(ConversationRows(messages, conversationId));
    }

    /** `delete_conversation`: 404 unless the user owns the conversation, with
        nothing deleted; otherwise its messages and then the conversation
        itself are deleted. */
    method DeleteConversation(userId: string, conversationId: string) returns (r: Result<(), HttpError>)
      modifies this`messages, this`conversations
      ensures old(OwnedBy(userId, conversationId)).Failure? ==>
        && r == Failure(HttpError(404, "Conversation not found"))
        && messages == old(messages) && conversations == old(conversations)
      ensures old(OwnedBy(userId, conversationId)).Success? ==>
        && r == Success(())
        && messages == WithoutConversation(old(messages), conversationId)
        && conversations == old(conversations) - {conversationId}
    {
      var owned := OwnedBy(userId, conversationId);
      if owned.Failure? {
        return Failure(owned.error);
      }
      messages := WithoutConversation(messages, conversationId);
      conversations := conversations - {conversationId};
      r := Success(());
    }

    /** The first step of `chat`: a named conversation must belong to the user
        (404 otherwise); without one, a new conversation is created. */
    method OpenConversation(userId: string, body: ChatIn, freshId: string) returns (r: Result<string, HttpError>)
      requires !NamesConversation(body) ==> freshId !in conversations
      modifies this`conversations
      ensures NamesConversation(body) && old(OwnedBy(userId, body.conversationId.value)).Failure? ==>
        r == Failure(HttpError(404, "Conversation not found"))
      ensures !NamesConversation(body) || old(OwnedBy(userId, body.conversationId.value)).Success? ==>
        r == Success(TargetConversation(body, freshId)) && r.value in conversations
      ensures conversations == Opened(old(conversations), userId, body, freshId)
    {
      if NamesConversation(body) {
        var owned := OwnedBy(userId, body.conversationId.value);
        if owned.Failure? {
          return Failure(owned.error);
        }
        return Success(body.conversationId.value);
      }
      var created := CreateConversation(userId, freshId, None);
      return Success(created.id);
    }

    /** The first half of a turn: the user's message is stored and shown as
        the preview, the history read back ends with it, and the profile
        exists. */
    method BeginTurn(userId: string, conversationId: string, message: string)
      returns (history: seq<HistoryEntry>, profile: Profile)
      requires conversationId in conversations
      modifies this
      ensures messages == old(messages) + [UserMessage(conversationId, message, userId)]
      ensures conversations == Touched(old(conversations), conversationId, message)
      ensures history == ChatContext(messages, conversationId)
      ensures profile == ProfileOf(old(profiles), userId) && profiles == WithProfile(old(profiles), userId)
    {
      InsertMessage(conversationId, "user", message, Some(userId));
      TouchConversation(conversationId, message);
      var fetched := FetchHistory(conversationId);
      history := fetched.value;
      profile := EnsureProfile(userId);
    }

    /** The second half of a turn after a reply: the reply is stored and shown
        as the preview, and the detected profile updates, if any, are merged
        into the profile. */
    method FinishTurn(userId: string, conversationId: string, message: string, profile: Profile, reply: string,
                      extract: (string, Profile) -> ModelOutcome,
                      decode: string -> Option<Json>)
      requires conversationId in conversations
      requires userId in profiles && profiles[userId] == profile
      modifies this
      ensures messages == old(messages) + [Message(conversationId, "model", reply, None)]
      ensures conversations == Touched(old(conversations), conversationId, reply)
      ensures var updates := DetectProfileUpdates(message, profile, extract, decode);
        profiles == old(profiles)[userId := if updates == map[] then profile else Merge(profile, updates)]
    {
      InsertMessage(conversationId, "model", reply, None);
      TouchConversation(conversationId, reply);
      var updates := DetectProfileUpdates(message, profile, extract, decode);
      if updates != map[] {
        var _ := UpdateProfile(userId, updates);
      }
    }

    /** The rest of a `chat` turn once the conversation is known: store the
        user's message and touch the conversation, read the history (which now
        ends with that message), ensure the profile, call the chat model; on
        failure a 500 and no model message; otherwise store and touch the reply
        ("(no response)" for an empty one), then apply the detected profile
        updates if there are any. */
    method Respond(userId: string, conversationId: string, message: string, systemPrompt: string,
                   chatModel: (seq<HistoryEntry>, string) -> ModelOutcome,
                   extract: (string, Profile) -> ModelOutcome,
                   decode: string -> Option<Json>)
      returns (r: Result<ChatOut, HttpError>)
      requires conversationId in conversations
      modifies this
      ensures var outcome := TurnOutcome(old(messages), old(profiles), userId, conversationId, message, systemPrompt, chatModel);
        outcome.Failed? ==>
          && r == Failure(HttpError(500, "Gemini error: " + outcome.reason))
          && messages == old(messages) + [UserMessage(conversationId, message, userId)]
          && conversations == Touched(old(conversations), conversationId, message)
          && profiles == WithProfile(old(profiles), userId)
      ensures var outcome := TurnOutcome(old(messages), old(profiles), userId, conversationId, message, systemPrompt, chatModel);
        outcome.Replied? ==>
          var reply := ChatReply(outcome.text);
          var profile := ProfileOf(old(profiles), userId);
          var updates := DetectProfileUpdates(message, profile, extract, decode);
          && r == Success(ChatOut(reply, conversationId))
          && messages == old(messages) + [UserMessage(conversationId, message, userId)] + [Message(conversationId, "model", reply, None)]
          && conversations == Touched(old(conversations), conversationId, reply)
          && profiles == WithProfile(old(profiles), userId)[userId := if updates == map[] then profile else Merge(profile, updates)]
    {
      var history, profile := BeginTurn(userId, conversationId, message);
      var outcome := chatModel(history, SystemInstruction(systemPrompt, profile));
      assert outcome == TurnOutcome(old(messages), old(profiles), userId, conversationId, message, systemPrompt, chatModel);
      if outcome.Failed? {
        return Failure(HttpError(500, "Gemini error: " + outcome.reason));
      }
      var reply := ChatReply(outcome.text);
      TouchedTwice(old(conversations), conversationId, message, reply);
      FinishTurn(userId, conversationId, message, profile, reply, extract, decode);
      return Success(ChatOut(reply, conversationId));
    }

    /** `chat`: a named conversation must belong to the user (404 otherwise,
        with nothing written); without one, a new conversation is created; then
        the turn goes on as `Respond` says. */
    method Chat(userId: string, body: ChatIn, freshId: string, systemPrompt: string,
                chatModel: (seq<HistoryEntry>, string) -> ModelOutcome,
                extract: (string, Profile) -> ModelOutcome,
                decode: string -> Option<Json>)
      returns (r: Result<ChatOut, HttpError>)
      requires !NamesConversation(body) ==> freshId !in conversations
      modifies this
      ensures NamesConversation(body) && old(OwnedBy(userId, body.conversationId.value)).Failure? ==>
        && r == Failure(HttpError(404, "Conversation not found"))
        && messages == old(messages) && conversations == old(conversations) && profiles == old(profiles)
      ensures !NamesConversation(body) || old(OwnedBy(userId, body.conversationId.value)).Success? ==>
        var cid := TargetConversation(body, freshId);
        && cid in Opened(old(conversations), userId, body, freshId)
        && cid in conversations
        && conversations[cid].userId == userId
      ensures !NamesConversation(body) ==>
        conversations[freshId].id == freshId && conversations[freshId].title == DefaultTitle
      ensures var cid := TargetConversation(body, freshId);
        var outcome := TurnOutcome(old(messages), old(profiles), userId, cid, body.message, systemPrompt, chatModel);
        (!NamesConversation(body) || old(OwnedBy(userId, body.conversationId.value)).Success?) && outcome.Failed? ==>
          && r == Failure(HttpError(500, "Gemini error: " + outcome.reason))
          && messages == old(messages) + [UserMessage(cid, body.message, userId)]
          && conversations == Touched(Opened(old(conversations), userId, body, freshId), cid, body.message)
          && profiles == WithProfile(old(profiles), userId)
      ensures var cid := TargetConversation(body, freshId);
        var outcome := TurnOutcome(old(messages), old(profiles), userId, cid, body.message, systemPrompt, chatModel);
        (!NamesConversation(body) || old(OwnedBy(userId, body.conversationId.value)).Success?) && outcome.Replied? ==>
          var reply := ChatReply(outcome.text);
          var profile := ProfileOf(old(profiles), userId);
          var updates := DetectProfileUpdates(body.message, profile, extract, decode);
          && r == Success(ChatOut(reply, cid))
          && messages == old(messages) + [UserMessage(cid, body.message, userId)] + [Message(cid, "model", reply, None)]
          && conversations == Touched(Opened(old(conversations), userId, body, freshId), cid, reply)
          && profiles == WithProfile(old(profiles), userId)[userId := if updates == map[] then profile else Merge(profile, updates)]
    {
      var target := OpenConversation(userId, body, freshId);
      if target.Failure? {
        return Failure(target.error);
      }
      r := Respond(userId, target.value, body.message, systemPrompt, chatModel, extract, decode);
    }
  }
}
