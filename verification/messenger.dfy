/** The chat client: its local copy of the chats, the selected chat, and the
    guard before it sends a message. Rendering is left out; the selected
    chat is held by id and read through the chat map. */
module Messenger {
  import opened Prelude
  import opened Entities
  import opened Protocol
  import opened Text
  import OM = OrderedMap

  datatype State = State(chats: OM.JsMap<Chat>, currentChat: Option<ChatId>)

  /** The selected chat, when there is one, is a chat the client holds. */
  predicate Selectable(st: State)
  {
    st.currentChat.Some? ==> st.currentChat.value in st.chats.table
  }

  function Initial(): (st: State)
    ensures st.chats.table == map[] && st.currentChat.None? && Selectable(st)
  {
    State(OM.Empty(), None)
  }

  /** `truncateText`: a text longer than `maxLength` is cut to its first
      `maxLength` characters (none when the limit is negative, as `substring`
      clamps) followed by an ellipsis. */
  function TruncateText(text: string, maxLength: int): (r: string)
    ensures |text| <= maxLength ==> r == text
    ensures |text| > maxLength && maxLength >= 0 ==>
              && |r| == maxLength + 3
              && r[..maxLength] == text[..maxLength]
              && r[maxLength..] == "..."
    ensures maxLength < 0 ==> r == "..."
  {
    if |text| > maxLength then text[..Max(maxLength, 0)] + "..." else text
  }

  /** Truncating an already truncated text changes nothing. */
  lemma TruncateIdempotent(text: string, maxLength: int)
    ensures TruncateText(TruncateText(text, maxLength), maxLength) == TruncateText(text, maxLength)
  {
    var r := TruncateText(text, maxLength);
    if |text| > maxLength && maxLength >= 0 {
      assert r == r[..maxLength] + r[maxLength..];
    }
  }

  /** `selectChat`: an unknown id leaves the selection as it was. */
  function SelectChat(st: State, chatId: ChatId): (r: State)
    ensures r.chats == st.chats
    ensures chatId in st.chats.table ==> r.currentChat == Some(chatId)
    ensures chatId !in st.chats.table ==> r == st
    ensures Selectable(st) ==> Selectable(r)
  {
    if chatId in st.chats.table then st.(currentChat := Some(chatId)) else st
  }

  /** `addChat` (on `chat-created`): stores the chat under its id, replacing
      any chat with that id, and selects it only when nothing is selected. */
  function AddChat(st: State, chat: Chat): (r: State)
    ensures r.chats.table == st.chats.table[chat.id := chat]
    ensures st.currentChat.Some? ==> r.currentChat == st.currentChat
    ensures st.currentChat.None? ==> r.currentChat == Some(chat.id)
    ensures Selectable(st) ==> Selectable(r)
  {
    var added := st.(chats := OM.Set(st.chats, chat.id, chat));
    if st.currentChat.None? then SelectChat(added, chat.id) else added
  }

  /** The result of `receiveMessage`: the new state, and whether the user is
      notified (the message is for a chat other than the selected one). */
  datatype Received = Received(state: State, notify: bool)

  /** `receiveMessage` (on `new-message`): appends to a known chat, ignores an
      unknown one. */
  function ReceiveMessage(st: State, chatId: ChatId, m: Message): (r: Received)
    ensures chatId !in st.chats.table ==> r.state == st && !r.notify
    ensures chatId in st.chats.table ==>
              && r.state.currentChat == st.currentChat
              && r.state.chats.order == st.chats.order
              && r.state.chats.table.Keys == st.chats.table.Keys
              && r.state.chats.table[chatId].messages == st.chats.table[chatId].messages + [m]
              && r.state.chats.table[chatId].id == st.chats.table[chatId].id
              && r.state.chats.table[chatId].participants == st.chats.table[chatId].participants
              && (forall k :: k in st.chats.table && k != chatId ==> r.state.chats.table[k] == st.chats.table[k])
              && (r.notify <==> st.currentChat != Some(chatId))
    ensures Selectable(st) ==> Selectable(r.state)
  {
    match OM.Get(st.chats, chatId)
    case None => Received(st, false)
    case Some(chat) =>
      var chat' := chat.(messages := chat.messages + [m]);
      Received(st.(chats := OM.Set(st.chats, chatId, chat')), st.currentChat != Some(chatId))
  }

  /** The result of `sendMessage`: what is emitted, if anything, and the text
      left in the input box. */
  datatype Sent = Sent(emit: Option<Inbound>, input: string)

  /** `sendMessage`: needs a logged-in user, a selected chat and a non-blank
      input; sends the trimmed text and clears the box. */
  function SendMessage(loggedIn: bool, st: State, input: string): (r: Sent)
    ensures !loggedIn || st.currentChat.None? || AllSpace(input) ==> r == Sent(None, input)
    ensures loggedIn && st.currentChat.Some? && !AllSpace(input) ==>
              && r.emit == Some(Inbound.SendMessage(st.currentChat.value, Trim(input)))
              && r.input == ""
  {
    if !loggedIn || st.currentChat.None? then Sent(None, input)
    else
      var content := Trim(input);
      if content == "" then Sent(None, input)
      else Sent(Some(Inbound.SendMessage(st.currentChat.value, content)), "")
  }

  /** What `sendMessage` emits is non-empty and already trimmed. */
  lemma SentContentIsTrimmed(loggedIn: bool, st: State, input: string)
    requires SendMessage(loggedIn, st, input).emit.Some?
    ensures var c := SendMessage(loggedIn, st, input).emit.value.content;
            c != "" && Trim(c) == c
  {
    TrimIdempotent(input);
  }

  /** The chat-partner choice of `getOtherUser`: the first participant that
      is not the current user (with nobody logged in, the first one). */
  function OtherUser(participants: seq<UserId>, me: Option<UserId>): (r: Option<UserId>)
    ensures r.None? <==> forall i :: 0 <= i < |participants| ==> Some(participants[i]) == me
    ensures r.Some? ==> exists i :: 0 <= i < |participants| && participants[i] == r.value
                          && Some(r.value) != me
                          && forall j :: 0 <= j < i ==> Some(participants[j]) == me
  {
    if participants == [] then None
    else if Some(participants[0]) != me then Some(participants[0])
    else
      var r := OtherUser(participants[1..], me);
      assert r.Some? ==> exists i :: 0 <= i < |participants| && participants[i] == r.value
                          && Some(r.value) != me
                          && forall j :: 0 <= j < i ==> Some(participants[j]) == me by {
        if r.Some? {
          var i :| 0 <= i < |participants[1..]| && participants[1..][i] == r.value
                    && forall j :: 0 <= j < i ==> Some(participants[1..][j]) == me;
          assert participants[i + 1] == r.value;
          forall j | 0 <= j < i + 1 ensures Some(participants[j]) == me {
            if j > 0 { assert participants[j] == participants[1..][j - 1]; }
          }
        }
      }
      r
  }

  /** In a chat of two different users each sees the other. */
  lemma OtherOfPair(a: UserId, b: UserId)
    requires a != b
    ensures OtherUser([a, b], Some(a)) == Some(b)
    ensures OtherUser([a, b], Some(b)) == Some(a)
    ensures OtherUser([a, b], None) == Some(a)
  {
    assert [a, b][1..] == [b];
  }

  /** `showNewChatModal` followed by a pick: only a logged-in user gets to
      pick, and the pick is sent as `create-chat`. */
  function NewChat(loggedIn: bool, target: UserId): (r: Option<Inbound>)
    ensures r.Some? <==> loggedIn
    ensures r.Some? ==> r.value.CreateChat? && r.value.targetUserId == target
  {
    if loggedIn then Some(Inbound.CreateChat(target)) else None
  }
}
