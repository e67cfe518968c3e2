/** The socket event handlers of the server, each a pure transition from the
    in-memory stores and one connection's state to new stores, a new
    connection state and the emissions the handler makes.

    Everything the handlers obtain from outside is an `Env` value: the uuid
    the handler draws, the clock reading, bcrypt's hash and compare, and
    `encodeURIComponent`. Each handler runs to completion before the next
    one starts. */
module Server {
  import opened Prelude
  import opened Entities
  import opened Protocol
  import OM = OrderedMap

  /** The four module-level maps and arrays of the server. */
  datatype Store = Store(
    users: OM.JsMap<User>,
    posts: seq<Post>,
    chats: OM.JsMap<Chat>,
    online: OM.JsMap<OnlineEntry>)

  /** One connection: its socket id and the user it authenticated as, if any. */
  datatype Conn = Conn(socketId: SocketId, currentUser: Option<User>)

  /** The values a handler takes from outside. `hash` answers `None` when
      bcrypt throws; `compare` likewise. */
  datatype Env = Env(
    freshId: string,
    now: Time,
    hash: string -> Option<string>,
    compare: (string, string) -> Option<bool>,
    encode: string -> string)

  datatype Transition = Transition(store: Store, conn: Conn, out: seq<Emission>)

  const EmailTaken: string := "Email уже занят"
  const RegisterFailed: string := "Ошибка регистрации"
  const BadCredentials: string := "Неверный email или пароль"
  const LoginFailed: string := "Ошибка входа"
  const DefaultBio: string := "Новый пользователь REENKS 3.0 🚀"

  /** The handler returns early: nothing changes and nothing is sent. */
  function Ignore(st: Store, conn: Conn): Transition
  {
    Transition(st, conn, [])
  }

  /** `socket.emit(...)`: a reply to this connection only. */
  function Reply(conn: Conn, ev: Outbound): Emission
  {
    Emission(ToSocket(conn.socketId), ev)
  }

  predicate Authenticated(conn: Conn)
  {
    conn.currentUser.Some?
  }

  /** Whether some stored account has this e-mail address. */
  predicate EmailInUse(st: Store, email: string)
  {
    exists k :: k in st.users.table && st.users.table[k].email == email
  }

  /** `Array.prototype.find` on the e-mail field: the first match. */
  function FindByEmail(users: seq<User>, email: string): (r: Option<User>)
    ensures r.None? <==> forall i :: 0 <= i < |users| ==> users[i].email != email
    ensures r.Some? ==> exists i :: 0 <= i < |users| && users[i] == r.value
                          && r.value.email == email
                          && forall j :: 0 <= j < i ==> users[j].email != email
  {
    if users == [] then None
    else if users[0].email == email then Some(users[0])
    else
      var r := FindByEmail(users[1..], email);
      assert r.Some? ==> exists i :: 0 <= i < |users| && users[i] == r.value
                          && r.value.email == email
                          && forall j :: 0 <= j < i ==> users[j].email != email by {
        if r.Some? {
          var i :| 0 <= i < |users[1..]| && users[1..][i] == r.value
                    && forall j :: 0 <= j < i ==> users[1..][j].email != email;
          assert users[i + 1] == r.value;
          assert forall j :: 0 <= j < i + 1 ==> users[j].email != email by {
            forall j | 0 <= j < i + 1 ensures users[j].email != email {
              if j > 0 { assert users[j] == users[1..][j - 1]; }
            }
          }
        }
      }
      r
  }

  /** The account lookup both `register` and `login` perform. */
  function Lookup(st: Store, email: string): (r: Option<User>)
    ensures r.None? <==> !EmailInUse(st, email)
    ensures r.Some? ==> r.value.email == email
    ensures r.Some? ==> exists k :: k in st.users.table && st.users.table[k] == r.value
  {
    var vals := OM.Values(st.users);
    var r := FindByEmail(vals, email);
    assert r.Some? ==> r.value in vals;
    assert r.None? ==> !EmailInUse(st, email) by {
      if r.None? {
        forall k | k in st.users.table ensures st.users.table[k].email != email {
          assert st.users.table[k] in vals;
        }
      }
    }
    r
  }

  /** The avatar URL the server builds from the encoded name. */
  function AvatarUrl(encodedName: string): string
  {
    "https://ui-avatars.com/api/?name=" + encodedName + "&background=667eea&color=fff"
  }

  /** The account `register` creates; an empty bio falls back to the default. */
  function NewAccount(data: RegisterData, id: UserId, hashed: string, env: Env): (u: User)
    ensures u.id == id && u.email == data.email && u.password == hashed
    ensures u.profile.firstName == data.firstName && u.profile.lastName == data.lastName
    ensures u.profile.username == data.username
    ensures u.profile.avatar == AvatarUrl(env.encode(data.firstName + "+" + data.lastName))
    ensures data.bio != "" ==> u.profile.bio == data.bio
    ensures data.bio == "" ==> u.profile.bio == DefaultBio
  {
    User(id, data.email, hashed,
         Profile(data.firstName, data.lastName, data.username,
                 AvatarUrl(env.encode(data.firstName + "+" + data.lastName)),
                 if data.bio == "" then DefaultBio else data.bio))
  }

  /** `register`: refuses a used e-mail, otherwise stores a new account under
      a fresh id and authenticates this connection. Presence is not touched. */
  function OnRegister(st: Store, conn: Conn, data: RegisterData, env: Env): (r: Transition)
    ensures r.conn.socketId == conn.socketId
    ensures r.store.users.table.Keys >= st.users.table.Keys
    ensures EmailInUse(st, data.email) ==>
              r == Transition(st, conn, [Reply(conn, AuthError(EmailTaken))])
    ensures !EmailInUse(st, data.email) && env.hash(data.password).None? ==>
              r == Transition(st, conn, [Reply(conn, AuthError(RegisterFailed))])
    ensures !EmailInUse(st, data.email) && env.hash(data.password).Some? ==>
              && r.conn.socketId == conn.socketId
              && r.conn.currentUser == Some(NewAccount(data, env.freshId, env.hash(data.password).value, env))
              && r.store.users.table == st.users.table[env.freshId := r.conn.currentUser.value]
              && r.store.posts == st.posts && r.store.chats == st.chats && r.store.online == st.online
              && r.out == [Reply(conn, Registered(r.conn.currentUser.value.profile))]
  {
    if Lookup(st, data.email).Some? then
      Transition(st, conn, [Reply(conn, AuthError(EmailTaken))])
    else
      match env.hash(data.password)
      case None => Transition(st, conn, [Reply(conn, AuthError(RegisterFailed))])
      case Some(hashed) =>
        var user := NewAccount(data, env.freshId, hashed, env);
        Transition(st.(users := OM.Set(st.users, env.freshId, user)),
                   conn.(currentUser := Some(user)),
                   [Reply(conn, Registered(user.profile))])
  }

  /** The chats, in map order, that list `uid` among their participants. */
  function ChatsWith(chats: seq<Chat>, uid: UserId): (r: seq<Chat>)
    ensures forall c :: c in r <==> c in chats && uid in c.participants
    ensures |r| <= |chats|
  {
    if chats == [] then []
    else
      var tail := ChatsWith(chats[1..], uid);
      assert forall c :: c in chats <==> c == chats[0] || c in chats[1..];
      if uid in chats[0].participants then [chats[0]] + tail else tail
  }

  /** `login`: on a known e-mail with a matching password, authenticates the
      connection, records this socket as the user's presence (replacing any
      earlier one), replies with the initial sync and tells every other socket
      the user is online. */
  function OnLogin(st: Store, conn: Conn, email: string, password: string, env: Env): (r: Transition)
    ensures r.conn.socketId == conn.socketId
    ensures r.store.users == st.users
    ensures !EmailInUse(st, email) ==>
              r == Transition(st, conn, [Reply(conn, AuthError(BadCredentials))])
    ensures EmailInUse(st, email) ==>
              var u := Lookup(st, email).value;
              match env.compare(password, u.password)
              case None => r == Transition(st, conn, [Reply(conn, AuthError(LoginFailed))])
              case Some(false) => r == Transition(st, conn, [Reply(conn, AuthError(BadCredentials))])
              case Some(true) =>
                && r.conn == Conn(conn.socketId, Some(u))
                && r.store.online.table == st.online.table[u.id := OnlineEntry(conn.socketId, u.profile)]
                && r.store.users == st.users && r.store.posts == st.posts && r.store.chats == st.chats
                && |r.out| == 2
                && r.out[0].target == ToSocket(conn.socketId)
                && r.out[0].event.LoggedIn?
                && r.out[0].event.user == u.profile
                && r.out[0].event.feed == st.posts
                && r.out[0].event.onlineUsers == OM.Values(r.store.online)
                && (forall c :: c in r.out[0].event.chats <==> c in OM.Values(st.chats) && u.id in c.participants)
                && r.out[1] == Emission(AllExcept(conn.socketId), UserOnline(u.profile))
  {
    match Lookup(st, email)
    case None => Transition(st, conn, [Reply(conn, AuthError(BadCredentials))])
    case Some(user) =>
      match env.compare(password, user.password)
      case None => Transition(st, conn, [Reply(conn, AuthError(LoginFailed))])
      case Some(false) => Transition(st, conn, [Reply(conn, AuthError(BadCredentials))])
      case Some(true) =>
        var online := OM.Set(st.online, user.id, OnlineEntry(conn.socketId, user.profile));
        var sync := LoggedIn(user.profile, st.posts, OM.Values(online),
                             ChatsWith(OM.Values(st.chats), user.id));
        Transition(st.(online := online),
                   conn.(currentUser := Some(user)),
                   [Reply(conn, sync), Emission(AllExcept(conn.socketId), UserOnline(user.profile))])
  }

  /** `create-post`: puts a new post with no likes and no comments at the
      front of the feed and sends it to every socket. */
  function OnCreatePost(st: Store, conn: Conn, content: string, env: Env): (r: Transition)
    ensures r.store.users == st.users && r.conn == conn
    ensures !Authenticated(conn) ==> r == Ignore(st, conn)
    ensures Authenticated(conn) ==>
              && |r.store.posts| == |st.posts| + 1
              && r.store.posts[1..] == st.posts
              && r.store.posts[0].authorId == conn.currentUser.value.id
              && r.store.posts[0].author == conn.currentUser.value.profile
              && r.store.posts[0].content == content
              && r.store.posts[0].likes == 0
              && r.store.posts[0].comments == []
              && r.store.posts[0].id == env.freshId
              && r.store.posts[0].createdAt == env.now
              && r.store.users == st.users && r.store.chats == st.chats && r.store.online == st.online
              && r.conn == conn
              && r.out == [Emission(All, NewPost(r.store.posts[0]))]
  {
    match conn.currentUser
    case None => Ignore(st, conn)
    case Some(user) =>
      var post := Post(env.freshId, user.id, user.profile, content, 0, [], env.now);
      Transition(st.(posts := [post] + st.posts), conn, [Emission(All, NewPost(post))])
  }

  /** The participants, in order, that have a presence entry. */
  function OnlineParticipants(ps: seq<UserId>, online: OM.OMap<OnlineEntry>): (r: seq<UserId>)
    ensures forall p :: p in r <==> p in ps && p in online.table
    ensures |r| <= |ps|
  {
    if ps == [] then []
    else
      var tail := OnlineParticipants(ps[1..], online);
      assert forall p :: p in ps <==> p == ps[0] || p in ps[1..];
      if ps[0] in online.table then [ps[0]] + tail else tail
  }

  /** The `forEach` over participants: one `io.to(socketId)` delivery for each
      participant that has a presence entry, in participant order. */
  function Fanout(ps: seq<UserId>, online: OM.OMap<OnlineEntry>, ev: Outbound): (r: seq<Emission>)
    ensures |r| == |OnlineParticipants(ps, online)|
    ensures forall i :: 0 <= i < |r| ==>
              var p := OnlineParticipants(ps, online)[i];
              p in online.table && r[i] == Emission(ToSocket(online.table[p].socketId), ev)
  {
    if ps == [] then []
    else
      var tail := Fanout(ps[1..], online, ev);
      if ps[0] in online.table
      then [Emission(ToSocket(online.table[ps[0]].socketId), ev)] + tail
      else tail
  }

  /** The guard of `send-message`: an authenticated author who takes part in
      an existing chat. */
  predicate MaySend(st: Store, conn: Conn, chatId: ChatId)
  {
    && conn.currentUser.Some?
    && chatId in st.chats.table
    && conn.currentUser.value.id in st.chats.table[chatId].participants
  }

  /** `send-message`: appends one message to the chat and delivers it to the
      chat's online participants only. */
  function OnSendMessage(st: Store, conn: Conn, chatId: ChatId, content: string, env: Env): (r: Transition)
    ensures r.store.users == st.users && r.conn == conn
    ensures !MaySend(st, conn, chatId) ==> r == Ignore(st, conn)
    ensures MaySend(st, conn, chatId) ==>
              var before := st.chats.table[chatId];
              var u := conn.currentUser.value;
              && r.store.chats.order == st.chats.order
              && r.store.chats.table.Keys == st.chats.table.Keys
              && (forall k :: k in st.chats.table && k != chatId ==> r.store.chats.table[k] == st.chats.table[k])
              && var after := r.store.chats.table[chatId];
              && after.id == before.id
              && after.participants == before.participants
              && |after.messages| == |before.messages| + 1
              && after.messages[..|before.messages|] == before.messages
              && var m := after.messages[|before.messages|];
              && m == Message(env.freshId, u.id, Some(u.profile), content, env.now)
              && r.store.users == st.users && r.store.posts == st.posts && r.store.online == st.online
              && r.conn == conn
              && r.out == Fanout(before.participants, st.online, NewMessage(chatId, m))
  {
    if !MaySend(st, conn, chatId) then Ignore(st, conn)
    else
      var user := conn.currentUser.value;
      var chat := st.chats.table[chatId];
      var message := Message(env.freshId, user.id, Some(user.profile), content, env.now);
      var chat' := chat.(messages := chat.messages + [message]);
      assert chat'.messages[..|chat.messages|] == chat.messages;
      Transition(st.(chats := OM.Set(st.chats, chatId, chat')), conn,
                 Fanout(chat.participants, st.online, NewMessage(chatId, message)))
  }

  /** `create-chat`: with an authenticated caller and a known target, stores a
      new empty chat of the two and notifies whichever of them is online. */
  function OnCreateChat(st: Store, conn: Conn, target: UserId, env: Env): (r: Transition)
    ensures r.store.users == st.users && r.conn == conn
    ensures !(Authenticated(conn) && target in st.users.table) ==> r == Ignore(st, conn)
    ensures Authenticated(conn) && target in st.users.table ==>
              var c := Chat(env.freshId, [conn.currentUser.value.id, target], []);
              && r.store.chats.table == st.chats.table[env.freshId := c]
              && r.store.users == st.users && r.store.posts == st.posts && r.store.online == st.online
              && r.conn == conn
              && r.out == Fanout(c.participants, st.online, ChatCreated(c))
  {
    match conn.currentUser
    case None => Ignore(st, conn)
    case Some(user) =>
      if !OM.Has(st.users, target) then Ignore(st, conn)
      else
        var chat := Chat(env.freshId, [user.id, target], []);
        Transition(st.(chats := OM.Set(st.chats, env.freshId, chat)), conn,
                   Fanout(chat.participants, st.online, ChatCreated(chat)))
  }

  /** `game-score`: relays the caller's score to every socket. */
  function OnGameScore(st: Store, conn: Conn, score: int, game: string): (r: Transition)
    ensures r.store == st && r.conn == conn
    ensures !Authenticated(conn) ==> r.out == []
    ensures Authenticated(conn) ==>
              r.out == [Emission(All, NewHighscore(conn.currentUser.value.profile, score, game))]
  {
    match conn.currentUser
    case None => Ignore(st, conn)
    case Some(user) => Transition(st, conn, [Emission(All, NewHighscore(user.profile, score, game))])
  }

  /** `disconnect`: an authenticated connection deletes its user's presence
      entry, whichever socket it names, and tells every other socket. */
  function OnDisconnect(st: Store, conn: Conn): (r: Transition)
    ensures r.store.users == st.users && r.conn == conn
    ensures !Authenticated(conn) ==> r == Ignore(st, conn)
    ensures Authenticated(conn) ==>
              var u := conn.currentUser.value;
              && r.store.online.table == st.online.table - {u.id}
              && r.store.users == st.users && r.store.posts == st.posts && r.store.chats == st.chats
              && r.conn == conn
              && r.out == [Emission(AllExcept(conn.socketId), UserOffline(u.profile))]
  {
    match conn.currentUser
    case None => Ignore(st, conn)
    case Some(user) =>
      Transition(st.(online := OM.Delete(st.online, user.id)), conn,
                 [Emission(AllExcept(conn.socketId), UserOffline(user.profile))])
  }

  /** Events that the server only serves to an authenticated connection. */
  predicate NeedsAuth(input: Inbound)
  {
    input.CreatePost? || input.SendMessage? || input.CreateChat? || input.GameScore?
  }

  /** The dispatch of `socket.on(...)`. The server registers no handler for
      `like-post` or `add-comment`, so those events have no effect. */
  function Step(st: Store, conn: Conn, input: Inbound, env: Env): (r: Transition)
    ensures r.conn.socketId == conn.socketId
    ensures !(input.Register? || input.Login?) ==> r.conn == conn
    ensures NeedsAuth(input) && !Authenticated(conn) ==> r == Ignore(st, conn)
    ensures input.LikePost? || input.AddComment? ==> r == Ignore(st, conn)
    ensures r.store.users.table.Keys >= st.users.table.Keys
  {
    match input
    case Register(data) => OnRegister(st, conn, data, env)
    case Login(email, password) => OnLogin(st, conn, email, password, env)
    case CreatePost(content) => OnCreatePost(st, conn, content, env)
    case SendMessage(chatId, content) => OnSendMessage(st, conn, chatId, content, env)
    case CreateChat(target) => OnCreateChat(st, conn, target, env)
    case GameScore(score, game) => OnGameScore(st, conn, score, game)
    case LikePost(_) => Ignore(st, conn)
    case AddComment(_, _) => Ignore(st, conn)
    case Disconnect => OnDisconnect(st, conn)
  }

  const Alex: User := User("user1", "alex@demo.ru", "",
    Profile("Алексей", "Петров", "alex_petrov",
            "https://ui-avatars.com/api/?name=Алексей+Петров&background=667eea&color=fff",
            "Разработчик REENKS 3.0 🚀"))

  const Maria: User := User("user2", "maria@demo.ru", "",
    Profile("Мария", "Иванова", "maria_ivanova",
            "https://ui-avatars.com/api/?name=Мария+Иванова&background=ff6b6b&color=fff",
            "Дизайнер Living Glass 🎨"))

  /** The two demo accounts, Alex first. */
  function DemoUsers(hash1: string, hash2: string): (users: OM.JsMap<User>)
    ensures users.order == [Alex.id, Maria.id]
    ensures users.table == map[Alex.id := Alex.(password := hash1), Maria.id := Maria.(password := hash2)]
  {
    var alex := Alex.(password := hash1);
    var maria := Maria.(password := hash2);
    assert alex.id[4] != maria.id[4];
    OM.Set(OM.Set(OM.Empty(), alex.id, alex), maria.id, maria)
  }

  /** The demo chat `chat1`: two messages without an embedded author, an
      hour and half an hour old. */
  function DemoChats(msgId1: string, msgId2: string, now: Time): (chats: OM.JsMap<Chat>)
    ensures chats.order == ["chat1"]
    ensures chats.table.Keys == {"chat1"}
    ensures chats.table["chat1"].id == "chat1"
    ensures chats.table["chat1"].participants == [Alex.id, Maria.id]
    ensures chats.table["chat1"].messages ==
              [Message(msgId1, Alex.id, None, "Привет! Как тебе новая версия?", now - 3600000),
               Message(msgId2, Maria.id, None, "Супер! Дизайн просто огонь! 🔥", now - 1800000)]
  {
    var chat := Chat("chat1", [Alex.id, Maria.id],
                     [Message(msgId1, Alex.id, None, "Привет! Как тебе новая версия?", now - 3600000),
                      Message(msgId2, Maria.id, None, "Супер! Дизайн просто огонь! 🔥", now - 1800000)]);
    OM.Set(OM.Empty(), chat.id, chat)
  }

  /** The demo post by Alex with 15 likes and Maria's comment. */
  function DemoPost(postId: string, commentId: string, now: Time): (p: Post)
    ensures p.id == postId && p.authorId == Alex.id && p.author == Alex.profile
    ensures p.likes == 15 && p.createdAt == now
    ensures p.comments == [Comment(commentId, Maria.id, Maria.profile, "Выглядит потрясающе! 🎉", now)]
  {
    Post(postId, Alex.id, Alex.profile,
         "🚀 REENKS 3.0 запущен! Новый дизайн Living Glass, мессенджер и игры!",
         15, [Comment(commentId, Maria.id, Maria.profile, "Выглядит потрясающе! 🎉", now)], now)
  }

  /** The seeded state (`initSampleData`): the demo accounts, the demo post
      and the demo chat, and nobody online. The uuids, the two bcrypt hashes
      of `123456` and the clock reading are parameters. */
  function InitialStore(postId: string, commentId: string, msgId1: string, msgId2: string,
                        hash1: string, hash2: string, now: Time): (st: Store)
    ensures st.users.order == [Alex.id, Maria.id]
    ensures st.users.table == map[Alex.id := Alex.(password := hash1), Maria.id := Maria.(password := hash2)]
    ensures st.chats.order == ["chat1"] && st.chats.table.Keys == {"chat1"}
    ensures st.chats.table["chat1"].id == "chat1"
    ensures st.chats.table["chat1"].participants == [Alex.id, Maria.id]
    ensures |st.chats.table["chat1"].messages| == 2
    ensures st.online.table == map[] && st.online.order == []
    ensures |st.posts| == 1 && st.posts[0].likes == 15 && |st.posts[0].comments| == 1
    ensures st.posts[0].authorId == Alex.id
  {
    Store(DemoUsers(hash1, hash2), [DemoPost(postId, commentId, now)], DemoChats(msgId1, msgId2, now), OM.Empty())
  }
}
