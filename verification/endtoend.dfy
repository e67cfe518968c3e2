/** The clients and the server together: what a client's guard lets through
    is what the server then stores and sends back out. */
module EndToEnd {
  import opened Prelude
  import opened Entities
  import opened Protocol
  import opened Text
  import opened Server
  import opened ServerProps
  import Feed
  import Auth
  import Messenger
  import Game

  /** A post the client publishes reaches the server as its trimmed text,
      which then heads the feed with 1 to 500 characters, no surrounding
      white space, and is broadcast to everyone. */
  lemma PublishedPostIsTrimmed(app: Feed.App, input: string, st: Store, conn: Conn, env: Env)
    requires Feed.CreatePost(app, input).emit.Some?
    requires Authenticated(conn)
    ensures var t := Step(st, conn, Feed.CreatePost(app, input).emit.value, env);
            && t.store.posts[1..] == st.posts
            && t.store.posts[0].content == Trim(input)
            && 1 <= |t.store.posts[0].content| <= Feed.MaxPostLength
            && Trim(t.store.posts[0].content) == t.store.posts[0].content
            && t.out == [Emission(All, NewPost(t.store.posts[0]))]
  {
    TrimIdempotent(input);
  }

  /** The like and comment buttons emit events the server has no handler
      for: whatever they send changes nothing and produces no reply. */
  lemma LikeAndCommentAreDropped(app: Feed.App, postId: PostId, reply: Option<string>,
                                 st: Store, conn: Conn, env: Env)
    ensures Feed.LikePost(app, postId).Some? ==>
              Step(st, conn, Feed.LikePost(app, postId).value, env) == Ignore(st, conn)
    ensures Feed.CommentOnPost(app, postId, reply).Some? ==>
              Step(st, conn, Feed.CommentOnPost(app, postId, reply).value, env) == Ignore(st, conn)
  {
  }

  /** A message the chat client sends to a chat its user takes part in is
      stored as the chat's last message, with the trimmed, non-empty text. */
  lemma SentMessageIsStored(loggedIn: bool, client: Messenger.State, input: string,
                            st: Store, conn: Conn, env: Env)
    requires Messenger.SendMessage(loggedIn, client, input).emit.Some?
    requires MaySend(st, conn, client.currentChat.value)
    ensures var chatId := client.currentChat.value;
            var t := Step(st, conn, Messenger.SendMessage(loggedIn, client, input).emit.value, env);
            var msgs := t.store.chats.table[chatId].messages;
            && |msgs| == |st.chats.table[chatId].messages| + 1
            && msgs[|msgs| - 1].content == Trim(input)
            && msgs[|msgs| - 1].content != ""
            && Trim(msgs[|msgs| - 1].content) == msgs[|msgs| - 1].content
  {
    var chatId := client.currentChat.value;
    var e := Messenger.SendMessage(loggedIn, client, input).emit.value;
    assert e == Inbound.SendMessage(chatId, Trim(input));
    assert Step(st, conn, e, env) == OnSendMessage(st, conn, chatId, Trim(input), env);
    Messenger.SentContentIsTrimmed(loggedIn, client, input);
  }

  /** ... and is delivered to exactly the sockets of the chat's online
      participants. */
  lemma SentMessageIsRouted(loggedIn: bool, client: Messenger.State, input: string,
                            st: Store, conn: Conn, env: Env, s: SocketId)
    requires Messenger.SendMessage(loggedIn, client, input).emit.Some?
    requires MaySend(st, conn, client.currentChat.value)
    ensures var chatId := client.currentChat.value;
            var t := Step(st, conn, Messenger.SendMessage(loggedIn, client, input).emit.value, env);
            AnyReaches(t.out, s) <==>
              exists p :: p in st.chats.table[chatId].participants && p in st.online.table &&
                          st.online.table[p].socketId == s
  {
    var chatId := client.currentChat.value;
    var e := Messenger.SendMessage(loggedIn, client, input).emit.value;
    assert e == Inbound.SendMessage(chatId, Trim(input));
    assert Step(st, conn, e, env) == OnSendMessage(st, conn, chatId, Trim(input), env);
    NewMessageRouting(st, conn, chatId, Trim(input), env, s);
  }

  /** A receiving client that holds the chat appends exactly the message the
      server stored. */
  lemma ReceivedMessageMatchesServer(client: Messenger.State, st: Store, conn: Conn, chatId: ChatId,
                                     content: string, env: Env)
    requires MaySend(st, conn, chatId)
    requires chatId in client.chats.table
    requires client.chats.table[chatId].messages == st.chats.table[chatId].messages
    ensures var t := OnSendMessage(st, conn, chatId, content, env);
            var m := t.store.chats.table[chatId].messages[|st.chats.table[chatId].messages|];
            Messenger.ReceiveMessage(client, chatId, m).state.chats.table[chatId].messages ==
              t.store.chats.table[chatId].messages
  {
    var t := OnSendMessage(st, conn, chatId, content, env);
    var after := t.store.chats.table[chatId].messages;
    var n := |st.chats.table[chatId].messages|;
    assert after == after[..n] + [after[n]];
  }

  /** The chat picker's `create-chat` makes the server store a new chat of
      the picker and the picked account, last in order and with no
      messages, and announce it to exactly those two that are online. */
  lemma PickedChatIsCreated(st: Store, conn: Conn, target: UserId, env: Env, s: SocketId)
    requires Authenticated(conn) && target in st.users.table
    requires env.freshId !in st.chats.table
    ensures Messenger.NewChat(true, target).Some?
    ensures var t := Step(st, conn, Messenger.NewChat(true, target).value, env);
            && t.store.chats.order == st.chats.order + [env.freshId]
            && t.store.chats.table[env.freshId].participants == [conn.currentUser.value.id, target]
            && t.store.chats.table[env.freshId].messages == []
            && (AnyReaches(t.out, s) <==>
                  exists p :: p in [conn.currentUser.value.id, target] && p in st.online.table &&
                              st.online.table[p].socketId == s)
  {
    assert Messenger.NewChat(true, target).value == Inbound.CreateChat(target);
    assert Step(st, conn, Inbound.CreateChat(target), env) == OnCreateChat(st, conn, target, env);
    CreateChatRouting(st, conn, target, env, s);
  }

  /** A new record set while logged in is relayed by the server to every
      socket, unchanged, and lands at the top of each leaderboard. */
  lemma RecordReachesLeaderboard(g: Game.Game, bi: nat, ei: nat, drop: Option<Game.PowerUpKind>,
                                 st: Store, conn: Conn, env: Env, board: seq<Game.ScoreItem>)
    requires bi < |g.bullets| && ei < |g.enemies|
    requires Game.HitEnemy(g, bi, ei, drop, true).emit.Some?
    requires Authenticated(conn)
    ensures var o := Game.HitEnemy(g, bi, ei, drop, true);
            var t := Step(st, conn, o.emit.value, env);
            var who := conn.currentUser.value.profile;
            && t.store == st
            && t.out == [Emission(All, NewHighscore(who, o.game.highScore, Game.GameName))]
            && Game.UpdateLeaderboard(board, Game.ItemOf(who, o.game.highScore, Game.GameName))[0]
                 == Game.ScoreItem(who.firstName, Game.GameName, o.game.highScore)
  {
  }

  /** Registering through the form and then logging in with the same
      credentials (the password matching its stored hash) authenticates the
      new account, on any socket. */
  lemma RegisterThenLogin(form: RegisterData, st: Store, c1: Conn, c2: Conn, envR: Env, envL: Env)
    requires Consistent(st) && ConnConsistent(st, c1)
    requires Auth.Register(form).Some?
    requires !EmailInUse(st, form.email) && envR.hash(form.password).Some?
    requires envL.compare(form.password, envR.hash(form.password).value) == Some(true)
    ensures Auth.Login(form.email, form.password).Some?
    ensures var t1 := Step(st, c1, Auth.Register(form).value, envR);
            var t2 := Step(t1.store, c2, Auth.Login(form.email, form.password).value, envL);
            && t1.conn.currentUser.Some?
            && t1.conn.currentUser.value.id == envR.freshId
            && t2.conn == Conn(c2.socketId, t1.conn.currentUser)
            && envR.freshId in t2.store.online.table
            && t2.store.online.table[envR.freshId].socketId == c2.socketId
  {
    var t1 := OnRegister(st, c1, form, envR);
    RegisterPreserves(st, c1, form, envR);
    var u := t1.conn.currentUser.value;
    var users := t1.store.users.table;
    assert users[envR.freshId] == u;
    assert EmailInUse(t1.store, form.email);
    var v := Lookup(t1.store, form.email).value;
    var k :| k in users && users[k] == v;
    assert k == envR.freshId;
  }
}
