/** The data handling of frontend/src/pages/Chat.jsx: turning the history the
    server returns into chat bubbles, the guard and optimistic append of a send,
    removing a deleted conversation from the sidebar, and the title shown for
    the open conversation. Rendering, routing and the network calls are not
    modelled; their outcomes are parameters. */
module ChatPage {
  import opened Wrappers
  import opened Strings

  /** One history entry as the page receives it; `parts` may be missing. */
  datatype Incoming = Incoming(role: string, parts: Option<seq<string>>)

  datatype Sender = User | Ai

  /** A chat bubble of the page's `messages` state. */
  datatype Bubble = Bubble(id: string, sender: Sender, text: string)

  /** A sidebar entry of the page's `conversations` state; `title` may be null. */
  datatype Summary = Summary(id: string, title: Option<string>)

  const NewChatTitle: string := "New Chat"

  /** `` `${msg.role}-${index}` ``. */
  function BubbleId(role: string, index: nat): string {
    role + "-" + NatToString(index)
  }

  /** `msg.parts?.[0] || ''`: a missing list, an empty list and an empty first
      part all give the empty text. */
  function FirstPart(parts: Option<seq<string>>): (text: string)
    ensures parts.Some? && |parts.value| > 0 ==> text == parts.value[0]
    ensures parts.None? || |parts.value| == 0 ==> text == ""
  {
    if parts.Some? && |parts.value| > 0 then parts.value[0] else ""
  }

  function BubbleOf(msg: Incoming, index: nat): Bubble {
    Bubble(BubbleId(msg.role, index), if msg.role == "user" then User else Ai, FirstPart(msg.parts))
  }

  /** `normalizeMessages`: a null or undefined history is the empty list; every
      entry becomes one bubble at the same position. */
  function NormalizeMessages(history: Option<seq<Incoming>>): (r: seq<Bubble>)
    ensures |r| == |history.GetOr([])|
    ensures forall i :: 0 <= i < |r| ==> r[i] == BubbleOf(history.value[i], i)
  {
    var h := history.GetOr([]);
    seq(|h|, i requires 0 <= i < |h| => BubbleOf(h[i], i))
  }

  /** An id ends with the decimal index after the last '-', so two positions
      never share an id, whatever the roles are. */
  lemma BubbleIdsDiffer(a: string, i: nat, b: string, j: nat)
    requires i != j
    ensures BubbleId(a, i) != BubbleId(b, j)
  {
    var di, dj := NatToString(i), NatToString(j);
    var x, y := BubbleId(a, i), BubbleId(b, j);
    IdEndsWithIndex(a, di);
    IdEndsWithIndex(b, dj);
    if |x| == |y| {
      if |di| == |dj| {
        if di == dj {
          NatToStringInjective(i, j);
        }
        assert x[|x| - |di|..] != y[|y| - |dj|..];
      } else if |di| < |dj| {
        assert IsDigit(y[|y| - |di| - 1]);
        assert x[|x| - |di| - 1] != y[|y| - |di| - 1];
      } else {
        assert IsDigit(x[|x| - |dj| - 1]);
        assert x[|x| - |dj| - 1] != y[|y| - |dj| - 1];
      }
    }
  }

  /** An id is the role, a '-', and then nothing but the index's digits. */
  lemma IdEndsWithIndex(role: string, digits: string)
    requires AllDigits(digits)
    ensures var s := role + "-" + digits;
      && |s| == |role| + 1 + |digits|
      && s[|s| - |digits|..] == digits
      && s[|s| - |digits| - 1] == '-'
      && forall k :: |s| - |digits| <= k < |s| ==> IsDigit(s[k])
  {
    var s := role + "-" + digits;
    assert forall k :: |s| - |digits| <= k < |s| ==> s[k] == digits[k - (|s| - |digits|)];
  }

  /** The bubbles of one history have pairwise distinct ids, a sender that is
      `User` exactly for the "user" role, and the text of the first part. */
  lemma NormalizedBubbles(history: seq<Incoming>)
    ensures var r := NormalizeMessages(Some(history));
      && |r| == |history|
      && (forall i, j :: 0 <= i < j < |r| ==> r[i].id != r[j].id)
      && (forall i :: 0 <= i < |r| ==> (r[i].sender == User <==> history[i].role == "user"))
      && (forall i :: 0 <= i < |r| ==> r[i].text == FirstPart(history[i].parts))
  {
    var r := NormalizeMessages(Some(history));
    forall i, j | 0 <= i < j < |r|
      ensures r[i].id != r[j].id
    {
      BubbleIdsDiffer(history[i].role, i, history[j].role, j);
    }
  }

  /** A missing history shows no bubbles. */
  lemma NoHistoryNoBubbles()
    ensures NormalizeMessages(None) == []
  {
  }

  /** `prev.filter((c) => c.id !== id)`. */
  function Without(conversations: seq<Summary>, id: string): (r: seq<Summary>)
    ensures |r| <= |conversations|
    ensures forall c :: c in r <==> c in conversations && c.id != id
  {
    if conversations == [] then []
    else
      var rest := Without(conversations[1..], id);
      if conversations[0].id == id then rest
      else
        assert forall c :: c in [conversations[0]] + rest <==> c == conversations[0] || c in rest;
        [conversations[0]] + rest
  }

  /** `s` is `t` with some elements removed, the rest in their order. */
  predicate IsSubsequence(s: seq<Summary>, t: seq<Summary>)
    decreases |t|
  {
    s == [] || (t != [] && (if s[0] == t[0] then IsSubsequence(s[1..], t[1..]) else IsSubsequence(s, t[1..])))
  }

  /** Deleting keeps the other conversations in their order. */
  lemma {:induction false} WithoutKeepsOrder(conversations: seq<Summary>, id: string)
    ensures IsSubsequence(Without(conversations, id), conversations)
  {
    if conversations != [] {
      var rest := Without(conversations[1..], id);
      WithoutKeepsOrder(conversations[1..], id);
      if conversations[0].id != id {
        assert ([conversations[0]] + rest)[1..] == rest;
      } else if rest != [] {
        assert rest[0] in conversations[1..];
        assert rest[0] != conversations[0];
      }
    }
  }

  /** Deleting an id a second time changes nothing. */
  lemma {:induction false} WithoutIdempotent(conversations: seq<Summary>, id: string)
    ensures Without(Without(conversations, id), id) == Without(conversations, id)
  {
    if conversations != [] {
      WithoutIdempotent(conversations[1..], id);
      var rest := Without(conversations[1..], id);
      if conversations[0].id != id {
        assert ([conversations[0]] + rest)[1..] == rest;
      }
    }
  }

  /** Deleting an id no conversation has changes nothing. */
  lemma {:induction false} WithoutAbsent(conversations: seq<Summary>, id: string)
    requires forall c :: c in conversations ==> c.id != id
    ensures Without(conversations, id) == conversations
  {
    if conversations != [] {
      assert forall c :: c in conversations[1..] ==> c in conversations;
      WithoutAbsent(conversations[1..], id);
      assert [conversations[0]] + conversations[1..] == conversations;
    }
  }

  /** The index `conversations.find` stops at: the first conversation with the
      open chat's id, or `|conversations|`. */
  function FindIndex(conversations: seq<Summary>, chatId: Option<string>): (k: nat)
    ensures k <= |conversations|
    ensures k < |conversations| ==> chatId == Some(conversations[k].id)
    ensures forall i :: 0 <= i < k ==> chatId != Some(conversations[i].id)
  {
    if conversations == [] || chatId == Some(conversations[0].id) then 0
    else 1 + FindIndex(conversations[1..], chatId)
  }

  /** `currentTitle`: `current?.title || 'New Chat'`. */
  function CurrentTitle(conversations: seq<Summary>, chatId: Option<string>): string {
    var k := FindIndex(conversations, chatId);
    if k < |conversations| && conversations[k].title.Some? && conversations[k].title.value != ""
    then conversations[k].title.value
    else NewChatTitle
  }

  /** Position `k` holds the first conversation with the open chat's id. */
  predicate FirstWithId(conversations: seq<Summary>, chatId: Option<string>, k: nat)
    requires k < |conversations|
  {
    chatId == Some(conversations[k].id) && forall i :: 0 <= i < k ==> chatId != Some(conversations[i].id)
  }

  /** The title a found conversation shows: its own when non-empty. */
  function ShownTitle(c: Summary): string {
    if c.title.Some? && c.title.value != "" then c.title.value else NewChatTitle
  }

  /** The title is that of the first conversation with the open chat's id when
      it has a non-empty one, and "New Chat" otherwise. */
  lemma CurrentTitleCases(conversations: seq<Summary>, chatId: Option<string>)
    ensures CurrentTitle(conversations, chatId) != ""
    ensures (forall c :: c in conversations ==> chatId != Some(c.id))
      ==> CurrentTitle(conversations, chatId) == NewChatTitle
    ensures forall k :: 0 <= k < |conversations| && FirstWithId(conversations, chatId, k) ==>
      CurrentTitle(conversations, chatId) == ShownTitle(conversations[k])
  {
    var k := FindIndex(conversations, chatId);
    if k < |conversations| {
      assert conversations[k] in conversations;
    }
  }

  /** After the open conversation is deleted from the list, the page shows
      "New Chat". */
  lemma DeletedConversationHasNoTitle(conversations: seq<Summary>, id: string)
    ensures CurrentTitle(Without(conversations, id), Some(id)) == NewChatTitle
  {
    CurrentTitleCases(Without(conversations, id), Some(id));
  }

  /** The page state the modelled handlers change. `chatId` is the route's
      conversation id. */
  class ChatView {
    var messages: seq<Bubble>
    var conversations: seq<Summary>
    var input: string
    var chatId: Option<string>

    constructor (chatId: Option<string>)
      ensures messages == [] && conversations == [] && input == "" && this.chatId == chatId
    {
      messages := [];
      conversations := [];
      input := "";
      this.chatId := chatId;
    }

    /** `handleSend` up to the request: nothing happens for an input that is
        blank after `trim()` or without a session; then the conversation is the
        open one or the one created (`created`, `None` when creation failed,
        which stops the send); the trimmed text is appended as a user bubble
        with the fresh id `freshId` and the input is cleared. The result is the
        text and conversation sent to the server, if any. */
    method HandleSend(hasSession: bool, created: Option<string>, freshId: string)
      returns (sent: Option<(string, string)>)
      modifies this`messages, this`input
      ensures var trimmed := JsTrim(old(input));
        var target := if old(chatId).Some? && old(chatId).value != "" then old(chatId) else created;
        if trimmed == "" || !hasSession || target.None? || target.value == "" then
          sent.None? && messages == old(messages) && input == old(input)
        else
          && sent == Some((trimmed, target.value))
          && messages == old(messages) + [Bubble(freshId, User, trimmed)]
          && input == ""
    {
      var trimmed := JsTrim(input);
      if trimmed == "" || !hasSession {
        return None;
      }
      var target := if chatId.Some? && chatId.value != "" then chatId else created;
      if target.None? || target.value == "" {
        return None;
      }
      messages := messages + [Bubble(freshId, User, trimmed)];
      input := "";
      return Some((trimmed, target.value));
    }

    /** `handleDeleteConversation`: without a session, or when the server
        refuses the delete (`accepted` is false), nothing changes; otherwise the
        conversation leaves the list, and deleting the open one navigates to
        "/chat", which has no conversation id. */
    method HandleDelete(hasSession: bool, accepted: bool, id: string)
      modifies this`conversations, this`chatId
      ensures !hasSession || !accepted ==> conversations == old(conversations) && chatId == old(chatId)
      ensures hasSession && accepted ==> conversations == Without(old(conversations), id)
      ensures hasSession && accepted ==> chatId == if old(chatId) == Some(id) then None else old(chatId)
    {
      if !hasSession || !accepted {
        return;
      }
      conversations := Without(conversations, id);
      if chatId == Some(id) {
        chatId := None;
      }
    }

    /** `currentTitle` over the page state. */
    function Title(): (title: string)
      reads this
      ensures title != ""
    {
      CurrentTitleCases(conversations, chatId);
      CurrentTitle(conversations, chatId)
    }
  }

  /** The input is blank to `handleSend` exactly when it is all JavaScript
      whitespace. */
  lemma BlankInputIff(input: string)
    ensures JsTrim(input) == "" <==> AllIn(input, IsJsSpace)
  {
    TrimEmptyIff(input, IsJsSpace);
  }
}
