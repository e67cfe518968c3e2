/** Properties of the server handlers: an invariant every event preserves,
    participant-only routing, feed and message ordering, and the
    one-socket-per-user presence as the code implements it. */
module ServerProps {
  import opened Prelude
  import opened Entities
  import opened Protocol
  import opened Server
  import OM = OrderedMap

  /** Accounts sit under their own id and no two share an e-mail address. */
  ghost predicate UsersKeyed(users: map<UserId, User>)
  {
    && (forall k :: k in users ==> users[k].id == k)
    && (forall a, b :: (a in users && b in users && users[a].email == users[b].email) ==> a == b)
  }

  /** Chats sit under their own id, list only stored accounts, and hold only
      messages written by one of their participants. */
  ghost predicate ChatsSound(chats: map<ChatId, Chat>, users: map<UserId, User>)
  {
    && (forall k :: k in chats ==> chats[k].id == k)
    && (forall k, p :: k in chats && p in chats[k].participants ==> p in users)
    && (forall k, m :: k in chats && m in chats[k].messages ==> m.authorId in chats[k].participants)
  }

  /** What every reachable store satisfies: the two predicates above,
      presence only for stored accounts, and posts only by stored
      accounts. */
  ghost predicate Consistent(st: Store)
  {
    && UsersKeyed(st.users.table)
    && ChatsSound(st.chats.table, st.users.table)
    && st.online.table.Keys <= st.users.table.Keys
    && (forall i :: 0 <= i < |st.posts| ==> st.posts[i].authorId in st.users.table)
  }

  /** References to accounts stay valid when accounts are only added. */
  lemma MoreAccountsKeepChats(chats: map<ChatId, Chat>, users: map<UserId, User>, users': map<UserId, User>)
    requires ChatsSound(chats, users) && users.Keys <= users'.Keys
    ensures ChatsSound(chats, users')
  {
  }

  /** A connection's user, once authenticated, is a stored account. */
  ghost predicate ConnConsistent(st: Store, conn: Conn)
  {
    conn.currentUser.Some? ==> conn.currentUser.value.id in st.users.table
  }

  lemma DemoUsersKeyed(hash1: string, hash2: string)
    ensures UsersKeyed(DemoUsers(hash1, hash2).table)
  {
    assert Alex.id[4] != Maria.id[4];
    assert Alex.email[0] != Maria.email[0];
  }

  lemma DemoChatsSound(msgId1: string, msgId2: string, now: Time, hash1: string, hash2: string)
    ensures ChatsSound(DemoChats(msgId1, msgId2, now).table, DemoUsers(hash1, hash2).table)
  {
    var chat := DemoChats(msgId1, msgId2, now).table["chat1"];
    assert forall m :: m in chat.messages ==> m.authorId in chat.participants;
  }

  lemma InitialConsistent(postId: string, commentId: string, msgId1: string, msgId2: string,
                          hash1: string, hash2: string, now: Time, socket: SocketId)
    ensures Consistent(InitialStore(postId, commentId, msgId1, msgId2, hash1, hash2, now))
    ensures ConnConsistent(InitialStore(postId, commentId, msgId1, msgId2, hash1, hash2, now),
                           Conn(socket, None))
  {
    DemoUsersKeyed(hash1, hash2);
    DemoChatsSound(msgId1, msgId2, now, hash1, hash2);
  }

  /** Adding an account under its own id, with an e-mail no stored account
      has, keeps accounts keyed by id and e-mails unique. */
  lemma AddAccountKeepsUsersKeyed(users: map<UserId, User>, u: User)
    requires UsersKeyed(users)
    requires forall k :: k in users ==> users[k].email != u.email
    ensures UsersKeyed(users[u.id := u])
  {
    var users' := users[u.id := u];
    assert forall b :: b in users' && b != u.id ==> users'[b] == users[b];
  }

  lemma RegisterPreserves(st: Store, conn: Conn, data: RegisterData, env: Env)
    requires Consistent(st) && ConnConsistent(st, conn)
    ensures Consistent(OnRegister(st, conn, data, env).store)
    ensures ConnConsistent(OnRegister(st, conn, data, env).store, OnRegister(st, conn, data, env).conn)
  {
    var r := OnRegister(st, conn, data, env);
    if !EmailInUse(st, data.email) && env.hash(data.password).Some? {
      var u := r.conn.currentUser.value;
      AddAccountKeepsUsersKeyed(st.users.table, u);
      MoreAccountsKeepChats(st.chats.table, st.users.table, r.store.users.table);
    }
  }

  lemma LoginPreserves(st: Store, conn: Conn, email: string, password: string, env: Env)
    requires Consistent(st) && ConnConsistent(st, conn)
    ensures Consistent(OnLogin(st, conn, email, password, env).store)
    ensures ConnConsistent(OnLogin(st, conn, email, password, env).store,
                           OnLogin(st, conn, email, password, env).conn)
  {
    if EmailInUse(st, email) {
      var u := Lookup(st, email).value;
      var k :| k in st.users.table && st.users.table[k] == u;
      assert u.id == k;
    }
  }

  lemma SendMessagePreserves(st: Store, conn: Conn, chatId: ChatId, content: string, env: Env)
    requires Consistent(st) && ConnConsistent(st, conn)
    ensures Consistent(OnSendMessage(st, conn, chatId, content, env).store)
    ensures ConnConsistent(OnSendMessage(st, conn, chatId, content, env).store,
                           OnSendMessage(st, conn, chatId, content, env).conn)
  {
    var r := OnSendMessage(st, conn, chatId, content, env);
    if MaySend(st, conn, chatId) {
      var chats := r.store.chats.table;
      var before := st.chats.table[chatId];
      var after := chats[chatId];
      forall k, m | k in chats && m in chats[k].messages
        ensures m.authorId in chats[k].participants
      {
        if k == chatId {
          var i :| 0 <= i < |after.messages| && after.messages[i] == m;
          if i < |before.messages| {
            assert after.messages[..|before.messages|][i] == m;
          }
        } else {
          assert chats[k] == st.chats.table[k];
        }
      }
      forall k | k in chats ensures chats[k].id == k {
        if k != chatId { assert chats[k] == st.chats.table[k]; }
      }
      forall k, p | k in chats && p in chats[k].participants ensures p in r.store.users.table {
        if k != chatId { assert chats[k] == st.chats.table[k]; }
      }
    }
  }

  lemma CreateChatPreserves(st: Store, conn: Conn, target: UserId, env: Env)
    requires Consistent(st) && ConnConsistent(st, conn)
    ensures Consistent(OnCreateChat(st, conn, target, env).store)
    ensures ConnConsistent(OnCreateChat(st, conn, target, env).store,
                           OnCreateChat(st, conn, target, env).conn)
  {
  }

  /** Every event keeps the store consistent and the connection's user a
      stored account; other connections stay consistent because accounts are
      never removed. */
  lemma StepPreserves(st: Store, conn: Conn, input: Inbound, env: Env, other: Conn)
    requires Consistent(st) && ConnConsistent(st, conn) && ConnConsistent(st, other)
    ensures Consistent(Step(st, conn, input, env).store)
    ensures ConnConsistent(Step(st, conn, input, env).store, Step(st, conn, input, env).conn)
    ensures ConnConsistent(Step(st, conn, input, env).store, other)
  {
    match input
    case Register(data) => RegisterPreserves(st, conn, data, env);
    case Login(email, password) => LoginPreserves(st, conn, email, password, env);
    case CreatePost(content) =>
    case SendMessage(chatId, content) => SendMessagePreserves(st, conn, chatId, content, env);
    case CreateChat(target) => CreateChatPreserves(st, conn, target, env);
    case GameScore(score, game) =>
    case LikePost(_) =>
    case AddComment(_, _) =>
    case Disconnect =>
  }

  /** The whole server: the stores and the state of every open connection. */
  datatype World = World(store: Store, conns: map<SocketId, Conn>)

  /** One event arriving on a socket. */
  datatype Event = Event(socket: SocketId, input: Inbound, env: Env)

  /** The connection state of a socket; a socket seen for the first time is
      a new, unauthenticated connection. */
  function ConnOf(w: World, s: SocketId): (c: Conn)
    ensures s in w.conns ==> c == w.conns[s]
    ensures s !in w.conns ==> c.socketId == s && c.currentUser.None?
  {
    if s in w.conns then w.conns[s] else Conn(s, None)
  }

  /** Handles one event; a disconnect also forgets the connection. */
  function WorldStep(w: World, e: Event): (r: (World, seq<Emission>))
    ensures e.input.Disconnect? ==> r.0.conns.Keys == w.conns.Keys - {e.socket}
    ensures !e.input.Disconnect? ==>
              && r.0.conns.Keys == w.conns.Keys + {e.socket}
              && r.0.conns[e.socket] == Step(w.store, ConnOf(w, e.socket), e.input, e.env).conn
    ensures forall s :: s in w.conns && s != e.socket ==> s in r.0.conns && r.0.conns[s] == w.conns[s]
    ensures r.0.store.users.table.Keys >= w.store.users.table.Keys
  {
    var t := Step(w.store, ConnOf(w, e.socket), e.input, e.env);
    var conns := if e.input.Disconnect? then w.conns - {e.socket} else w.conns[e.socket := t.conn];
    (World(t.store, conns), t.out)
  }

  /** Handles events one after another; returns the final world and every
      emission in order. */
  function Run(w: World, events: seq<Event>): (r: (World, seq<Emission>))
    ensures r.0.store.users.table.Keys >= w.store.users.table.Keys
    ensures forall s :: s in w.conns && (forall i :: 0 <= i < |events| ==> events[i].socket != s) ==>
              s in r.0.conns && r.0.conns[s] == w.conns[s]
    decreases |events|
  {
    if events == [] then (w, [])
    else
      var first := WorldStep(w, events[0]);
      var rest := Run(first.0, events[1..]);
      (rest.0, first.1 + rest.1)
  }

  ghost predicate WorldConsistent(w: World)
  {
    && Consistent(w.store)
    && forall s :: s in w.conns ==> w.conns[s].socketId == s && ConnConsistent(w.store, w.conns[s])
  }

  lemma InitialWorldConsistent(postId: string, commentId: string, msgId1: string, msgId2: string,
                               hash1: string, hash2: string, now: Time)
    ensures WorldConsistent(World(InitialStore(postId, commentId, msgId1, msgId2, hash1, hash2, now), map[]))
  {
    InitialConsistent(postId, commentId, msgId1, msgId2, hash1, hash2, now, "");
  }

  lemma WorldStepPreserves(w: World, e: Event)
    requires WorldConsistent(w)
    ensures WorldConsistent(WorldStep(w, e).0)
  {
    var c := ConnOf(w, e.socket);
    var t := Step(w.store, c, e.input, e.env);
    var w' := WorldStep(w, e).0;
    forall s | s in w'.conns
      ensures w'.conns[s].socketId == s && ConnConsistent(w'.store, w'.conns[s])
    {
      if s == e.socket {
        StepPreserves(w.store, c, e.input, e.env, c);
      } else {
        StepPreserves(w.store, c, e.input, e.env, w.conns[s]);
      }
    }
    StepPreserves(w.store, c, e.input, e.env, c);
  }

  /** Consistency holds after every sequence of events from a consistent
      world. */
  lemma {:induction false} RunPreserves(w: World, events: seq<Event>)
    requires WorldConsistent(w)
    ensures WorldConsistent(Run(w, events).0)
    decreases |events|
  {
    if events != [] {
      WorldStepPreserves(w, events[0]);
      RunPreserves(WorldStep(w, events[0]).0, events[1..]);
    }
  }

  // ----- routing -----------------------------------------------------------

  /** Every emission of a fan-out is a delivery of the one event to a
      single socket. */
  lemma FanoutCarries(ps: seq<UserId>, online: OM.JsMap<OnlineEntry>, ev: Outbound)
    ensures forall e :: e in Fanout(ps, online, ev) ==> e.event == ev && e.target.ToSocket?
  {
    var out := Fanout(ps, online, ev);
    forall e | e in out ensures e.event == ev && e.target.ToSocket? {
      var i :| 0 <= i < |out| && out[i] == e;
    }
  }

  /** A fan-out reaches only sockets of participants with a presence
      entry ... */
  lemma FanoutReachesOnlyPresent(ps: seq<UserId>, online: OM.JsMap<OnlineEntry>, ev: Outbound, s: SocketId)
    requires AnyReaches(Fanout(ps, online, ev), s)
    ensures exists p :: p in ps && p in online.table && online.table[p].socketId == s
  {
    var out := Fanout(ps, online, ev);
    var op := OnlineParticipants(ps, online);
    var i :| 0 <= i < |out| && Reaches(out[i].target, s);
    assert op[i] in op;
  }

  /** ... and reaches every one of them. */
  lemma FanoutReachesAllPresent(ps: seq<UserId>, online: OM.JsMap<OnlineEntry>, ev: Outbound, s: SocketId,
                                p: UserId)
    requires p in ps && p in online.table && online.table[p].socketId == s
    ensures AnyReaches(Fanout(ps, online, ev), s)
  {
    var out := Fanout(ps, online, ev);
    var op := OnlineParticipants(ps, online);
    assert p in op;
    var i :| 0 <= i < |op| && op[i] == p;
    assert Reaches(out[i].target, s);
  }

  /** Which sockets a fan-out reaches: exactly the sockets of participants
      that have a presence entry. */
  lemma FanoutReaches(ps: seq<UserId>, online: OM.JsMap<OnlineEntry>, ev: Outbound, s: SocketId)
    ensures AnyReaches(Fanout(ps, online, ev), s) <==>
              exists p :: p in ps && p in online.table && online.table[p].socketId == s
    ensures forall e :: e in Fanout(ps, online, ev) ==> e.event == ev && e.target.ToSocket?
  {
    if AnyReaches(Fanout(ps, online, ev), s) {
      FanoutReachesOnlyPresent(ps, online, ev, s);
    }
    if exists p :: p in ps && p in online.table && online.table[p].socketId == s {
      var p :| p in ps && p in online.table && online.table[p].socketId == s;
      FanoutReachesAllPresent(ps, online, ev, s, p);
    }
    FanoutCarries(ps, online, ev);
  }

  /** `new-message` reaches a socket exactly when it is the presence socket
      of a participant of the chat; any other socket receives nothing. */
  lemma NewMessageRouting(st: Store, conn: Conn, chatId: ChatId, content: string, env: Env, s: SocketId)
    requires MaySend(st, conn, chatId)
    ensures var r := OnSendMessage(st, conn, chatId, content, env);
            AnyReaches(r.out, s) <==>
              exists p :: p in st.chats.table[chatId].participants && p in st.online.table &&
                          st.online.table[p].socketId == s
    ensures var r := OnSendMessage(st, conn, chatId, content, env);
            forall e :: e in r.out ==> e.event.NewMessage? && e.event.chatId == chatId
  {
    var r := OnSendMessage(st, conn, chatId, content, env);
    var before := st.chats.table[chatId];
    var m := r.store.chats.table[chatId].messages[|before.messages|];
    FanoutReaches(before.participants, st.online, NewMessage(chatId, m), s);
  }

  /** `chat-created` reaches exactly the presence sockets of the caller and
      the target; a fresh id makes the chat the one new key of the map. */
  lemma CreateChatRouting(st: Store, conn: Conn, target: UserId, env: Env, s: SocketId)
    requires Authenticated(conn) && target in st.users.table
    requires env.freshId !in st.chats.table
    ensures var r := OnCreateChat(st, conn, target, env);
            && r.store.chats.table.Keys == st.chats.table.Keys + {env.freshId}
            && r.store.chats.order == st.chats.order + [env.freshId]
            && r.store.chats.table[env.freshId].participants == [conn.currentUser.value.id, target]
            && r.store.chats.table[env.freshId].messages == []
            && (AnyReaches(r.out, s) <==>
                  exists p :: p in [conn.currentUser.value.id, target] && p in st.online.table &&
                              st.online.table[p].socketId == s)
  {
    var c := Chat(env.freshId, [conn.currentUser.value.id, target], []);
    FanoutReaches(c.participants, st.online, ChatCreated(c), s);
  }

  // ----- ordering ----------------------------------------------------------

  /** `filter` over the chats, as used by `login`, keeps each chat in place:
      the result for two lists one after the other is the two results one
      after the other. With `ChatsWithOne` this fixes the order and the
      number of copies. */
  lemma {:induction false} ChatsWithConcat(a: seq<Chat>, b: seq<Chat>, uid: UserId)
    ensures ChatsWith(a + b, uid) == ChatsWith(a, uid) + ChatsWith(b, uid)
  {
    if a == [] {
      assert a + b == b;
    } else {
      var ab := a + b;
      assert ab[0] == a[0] && ab[1..] == a[1..] + b;
      ChatsWithConcat(a[1..], b, uid);
    }
  }

  /** A single chat is kept exactly when it lists the user. */
  lemma ChatsWithOne(c: Chat, uid: UserId)
    ensures ChatsWith([c], uid) == if uid in c.participants then [c] else []
  {
  }

  /** The same for the participants that are online, which `send-message`
      and `create-chat` notify in participant order. */
  lemma {:induction false} OnlineParticipantsConcat(a: seq<UserId>, b: seq<UserId>, online: OM.OMap<OnlineEntry>)
    ensures OnlineParticipants(a + b, online) == OnlineParticipants(a, online) + OnlineParticipants(b, online)
  {
    if a == [] {
      assert a + b == b;
    } else {
      var ab := a + b;
      assert ab[0] == a[0] && ab[1..] == a[1..] + b;
      OnlineParticipantsConcat(a[1..], b, online);
    }
  }

  /** A single participant is kept exactly when it is online. */
  lemma OnlineParticipantsOne(p: UserId, online: OM.OMap<OnlineEntry>)
    ensures OnlineParticipants([p], online) == if p in online.table then [p] else []
  {
  }

  /** Two posts made one after the other appear newest first. */
  lemma FeedNewestFirst(st: Store, conn: Conn, c1: string, c2: string, e1: Env, e2: Env)
    requires Authenticated(conn)
    ensures var t1 := OnCreatePost(st, conn, c1, e1);
            var t2 := OnCreatePost(t1.store, conn, c2, e2);
            && t2.store.posts[2..] == st.posts
            && t2.store.posts[0].content == c2 && t2.store.posts[1].content == c1
  {
    var t1 := OnCreatePost(st, conn, c1, e1);
    var t2 := OnCreatePost(t1.store, conn, c2, e2);
    assert t2.store.posts[2..] == t2.store.posts[1..][1..];
  }

  /** Two messages sent one after the other to a chat are appended in
      sending order. */
  lemma MessagesInSendOrder(st: Store, conn: Conn, chatId: ChatId, c1: string, c2: string, e1: Env, e2: Env)
    requires MaySend(st, conn, chatId)
    ensures var t1 := OnSendMessage(st, conn, chatId, c1, e1);
            var t2 := OnSendMessage(t1.store, conn, chatId, c2, e2);
            var u := conn.currentUser.value;
            t2.store.chats.table[chatId].messages ==
              st.chats.table[chatId].messages
                + [Message(e1.freshId, u.id, Some(u.profile), c1, e1.now),
                   Message(e2.freshId, u.id, Some(u.profile), c2, e2.now)]
  {
    var t1 := OnSendMessage(st, conn, chatId, c1, e1);
    assert MaySend(t1.store, conn, chatId);
    var t2 := OnSendMessage(t1.store, conn, chatId, c2, e2);
    var m0 := st.chats.table[chatId].messages;
    var m1 := t1.store.chats.table[chatId].messages;
    var m2 := t2.store.chats.table[chatId].messages;
    assert m1 == m1[..|m0|] + [m1[|m0|]];
    assert m2 == m2[..|m1|] + [m2[|m1|]];
  }

  // ----- registration and presence ------------------------------------------

  /** A successful registration with a fresh uuid adds exactly that one
      account and leaves presence alone. */
  lemma RegisterAddsOneAccount(st: Store, conn: Conn, data: RegisterData, env: Env)
    requires !EmailInUse(st, data.email) && env.hash(data.password).Some?
    requires env.freshId !in st.users.table
    ensures var r := OnRegister(st, conn, data, env);
            && r.store.users.table.Keys == st.users.table.Keys + {env.freshId}
            && r.store.users.order == st.users.order + [env.freshId]
            && (forall k :: k in st.users.table ==> r.store.users.table[k] == st.users.table[k])
            && r.conn.currentUser == Some(r.store.users.table[env.freshId])
            && r.store.online == st.online
  {
  }

  /** The `logged-in` chat list holds exactly the stored chats that list the
      user as a participant. */
  lemma LoginChatsExactly(st: Store, conn: Conn, email: string, password: string, env: Env)
    requires EmailInUse(st, email)
    requires env.compare(password, Lookup(st, email).value.password) == Some(true)
    ensures var r := OnLogin(st, conn, email, password, env);
            var u := Lookup(st, email).value;
            forall c :: c in r.out[0].event.chats <==>
                          (exists k :: k in st.chats.table && st.chats.table[k] == c) && u.id in c.participants
  {
    OM.ValuesOfValid(st.chats);
  }

  /** The presence map keeps one socket per user and the latest login wins:
      after logins on two sockets, the entry names the second. */
  lemma LastLoginWins(st: Store, c1: Conn, c2: Conn, email: string, password: string, e1: Env, e2: Env)
    requires EmailInUse(st, email)
    requires e1.compare(password, Lookup(st, email).value.password) == Some(true)
    requires e2.compare(password, Lookup(st, email).value.password) == Some(true)
    ensures var t1 := OnLogin(st, c1, email, password, e1);
            var t2 := OnLogin(t1.store, c2, email, password, e2);
            var u := Lookup(st, email).value;
            && t2.store.online.table[u.id].socketId == c2.socketId
            && t1.out[1] == Emission(AllExcept(c1.socketId), UserOnline(u.profile))
            && t2.out[1] == Emission(AllExcept(c2.socketId), UserOnline(u.profile))
  {
    var t1 := OnLogin(st, c1, email, password, e1);
    assert t1.store.users == st.users;
    assert Lookup(t1.store, email) == Lookup(st, email);
  }

  /** Disconnecting the earlier of two sockets of one user removes the user's
      presence although the later socket is still connected. */
  lemma StaleDisconnectDropsPresence(st: Store, c1: Conn, c2: Conn, email: string, password: string,
                                     e1: Env, e2: Env)
    requires EmailInUse(st, email)
    requires e1.compare(password, Lookup(st, email).value.password) == Some(true)
    requires e2.compare(password, Lookup(st, email).value.password) == Some(true)
    requires c1.socketId != c2.socketId
    ensures var t1 := OnLogin(st, c1, email, password, e1);
            var t2 := OnLogin(t1.store, c2, email, password, e2);
            var t3 := OnDisconnect(t2.store, t1.conn);
            var u := Lookup(st, email).value;
            && t2.conn.currentUser == Some(u)
            && u.id !in t3.store.online.table
            && t3.out == [Emission(AllExcept(c1.socketId), UserOffline(u.profile))]
  {
    var t1 := OnLogin(st, c1, email, password, e1);
    assert Lookup(t1.store, email) == Lookup(st, email);
  }

  /** Some member of a two-element list has its presence on `s` exactly when
      one of the two does. */
  lemma PairPresence(x: UserId, y: UserId, online: OM.JsMap<OnlineEntry>, s: SocketId)
    ensures (exists p :: p in [x, y] && p in online.table && online.table[p].socketId == s) <==>
              (x in online.table && online.table[x].socketId == s) ||
              (y in online.table && online.table[y].socketId == s)
  {
    assert x in [x, y] && y in [x, y];
  }

  /** The worked example of two users in a chat and a bystander, first
      half: `u1` creates a chat with `u2`; both receive it, the bystander's
      socket does not. */
  lemma ScenarioCreateChat(st: Store, a: Conn, u1: UserId, u2: UserId, sB: SocketId, sC: SocketId, e1: Env)
    requires a.currentUser.Some? && a.currentUser.value.id == u1
    requires u2 in st.users.table
    requires e1.freshId !in st.chats.table
    requires u1 in st.online.table && st.online.table[u1].socketId == a.socketId
    requires u2 in st.online.table && st.online.table[u2].socketId == sB
    requires sC != a.socketId && sC != sB
    ensures var t1 := OnCreateChat(st, a, u2, e1);
            && AnyReaches(t1.out, a.socketId) && AnyReaches(t1.out, sB) && !AnyReaches(t1.out, sC)
            && MaySend(t1.store, a, e1.freshId)
            && t1.store.online == st.online
            && t1.store.chats.table[e1.freshId].participants == [u1, u2]
  {
    CreateChatRouting(st, a, u2, e1, a.socketId);
    CreateChatRouting(st, a, u2, e1, sB);
    CreateChatRouting(st, a, u2, e1, sC);
    PairPresence(u1, u2, st.online, a.socketId);
    PairPresence(u1, u2, st.online, sB);
    PairPresence(u1, u2, st.online, sC);
  }

  /** Second half: `u1` sends "hi" to that chat; both participants receive
      it and the bystander's socket does not. */
  lemma ScenarioSendMessage(st: Store, a: Conn, chatId: ChatId, u1: UserId, u2: UserId,
                            sB: SocketId, sC: SocketId, e2: Env)
    requires MaySend(st, a, chatId)
    requires st.chats.table[chatId].participants == [u1, u2]
    requires u1 in st.online.table && st.online.table[u1].socketId == a.socketId
    requires u2 in st.online.table && st.online.table[u2].socketId == sB
    requires sC != a.socketId && sC != sB
    ensures var t2 := OnSendMessage(st, a, chatId, "hi", e2);
            && AnyReaches(t2.out, a.socketId) && AnyReaches(t2.out, sB) && !AnyReaches(t2.out, sC)
            && t2.store.chats.table[chatId].messages[|st.chats.table[chatId].messages|].content == "hi"
  {
    NewMessageRouting(st, a, chatId, "hi", e2, a.socketId);
    NewMessageRouting(st, a, chatId, "hi", e2, sB);
    NewMessageRouting(st, a, chatId, "hi", e2, sC);
    PairPresence(u1, u2, st.online, a.socketId);
    PairPresence(u1, u2, st.online, sB);
    PairPresence(u1, u2, st.online, sC);
  }
}
