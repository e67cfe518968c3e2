# REENKS 3.0 in Dafny

REENKS 3.0 is a small social network. A Node.js server keeps four in-memory
stores: accounts, posts, chats and presence (`onlineUsers`). It answers
socket.io events from browser clients. The clients are a feed page, the
login and registration forms, a chat window, and the Space Defender canvas
game. This project models the decision logic of both sides as pure Dafny
functions over immutable data and proves properties of them.

Modules:

- `Prelude`: `Option`, `Max`/`Min`, `Reverse`, and floor-division
  monotonicity.
- `Text`: `String.prototype.trim` with the ECMAScript white-space set, and
  the decimal rendering of a count.
- `OrderedMap`: a JavaScript `Map`, meaning a table plus insertion order.
  `JsMap` is the subset type of well-formed maps.
- `Entities`, `Protocol`: the records (accounts, profiles, posts, comments,
  messages, chats, presence entries) and the socket events in both
  directions. Each outgoing event is paired with its target: one socket,
  every socket, or every socket but the sender's.
- `Server`: each `socket.on` handler is a total function from store,
  connection and event to a new store, a new connection and the emissions.
  `Step` dispatches. `InitialStore` is `initSampleData`.
- `ServerProps`: an invariant that every event preserves, over one
  connection and over a whole world of connections. Also routing,
  ordering and presence lemmas, including the one-socket-per-user behaviour
  as written: the last login wins, and disconnecting a stale socket drops
  the user's presence.
- `Messenger`, `Feed`, `Auth`: the client guards before each emit, the
  client's copy of the chats, the displayed feed, and the relative-time
  labels.
- `Game`: Space Defender's phases, scoring, lives, levels, the per-frame
  filters, the collision test, the leaderboard, and an event-level run in
  which every score sent to the server beats the previous one.
- `EndToEnd`: client guards composed with server handlers.

Nondeterminism becomes parameters. The server's `Env` carries:

- the fresh uuid;
- the clock reading;
- the bcrypt results (`None` when bcrypt throws);
- `encodeURIComponent`.

On the client side, the prompt's reply, the random power-up drop and the
container width are arguments. Lengths are counted in Unicode characters.

Behaviour modelled as written:

- `startGame` keeps `enemySpawnRate`, so a new round at level 1 spawns as
  fast as the previous round ended. The `StartGame` contract states this.
- `handleLogin` ignores the `chats` list of `logged-in`. The chat client
  only ever learns of chats through `chat-created`.
- The server never reads `like-post` or `add-comment`.

## Model

| member | source | states |
|---|---|---|
| `OrderedMap.Empty` | reenks-3.0/server.js:28-31 | a new store has no keys and is well formed |
| `OrderedMap.Get` | reenks-3.0/server.js:213 | `get` yields the value exactly for present keys |
| `OrderedMap.Set` | reenks-3.0/server.js:149 | `set` updates the table; an existing key keeps its place, a new key goes last; well-formedness is kept |
| `OrderedMap.RemoveKey` | reenks-3.0/server.js:274 | removing a key from the order leaves exactly the other keys, without repeats when there were none, and leaves an order without that key as it was |
| `OrderedMap.RemoveKeyConcat` | reenks-3.0/server.js:274 | removal works piece by piece on an order split in two, so the pieces keep their placement |
| `OrderedMap.RemoveKeySplit` | reenks-3.0/server.js:274 | removing a key that occurs once closes its gap: the keys before and after it follow each other |
| `OrderedMap.RemoveKeyAt` | reenks-3.0/server.js:274 | in an order without repeats, removing the key at position i keeps the keys before and after it in their order |
| `OrderedMap.Delete` | reenks-3.0/server.js:274 | `delete` drops exactly that key from table and order and keeps the map well formed; deleting a missing key leaves the order alone |
| `OrderedMap.DeleteKeepsOrder` | reenks-3.0/server.js:274 | in a well-formed map, `delete` keeps the insertion order of the remaining keys |
| `OrderedMap.Values` | reenks-3.0/server.js:177 | `Array.from(m.values())` holds exactly the stored values, at most one per key |
| `OrderedMap.ValuesInOrder` | reenks-3.0/server.js:177 | for a well-formed map the values come one per key, in insertion order |
| `OrderedMap.ValuesOf` | reenks-3.0/server.js:178 | the values listed along an order are exactly the values of its stored keys |
| `OrderedMap.ValuesOfInOrder` | reenks-3.0/server.js:178 | when every key of the order is stored, the i-th value listed is the value of the i-th key |
| `OrderedMap.ValuesOfConcat` | reenks-3.0/server.js:178 | listing along two orders one after the other gives the two listings one after the other |
| `OrderedMap.ValuesOfValid` | reenks-3.0/server.js:178 | for a well-formed map, a value is listed iff some key maps to it |
| `Text.LeadLen` | reenks-3.0/js/public.js:125 | the length of the leading white space, which is followed by a non-space |
| `Text.TrailLen` | reenks-3.0/js/public.js:125 | the length of the trailing white space, which is preceded by a non-space |
| `Text.Trim` | reenks-3.0/js/public.js:125 | `trim()` returns the middle slice, is empty iff the text is all white space, and otherwise starts and ends with a non-space |
| `Text.TrimOfTrimmed` | reenks-3.0/js/messenger.js:222 | a text with no white space at either end is its own trim |
| `Text.TrimIdempotent` | reenks-3.0/js/messenger.js:222 | trimming twice equals trimming once |
| `Text.TrimPadded` | reenks-3.0/js/public.js:125 | white space added at either end is removed again by trim |
| `Text.LeadOfPadded` | reenks-3.0/js/public.js:125 | leading white space added to a text is counted by the leading length |
| `Text.TrailOfPadded` | reenks-3.0/js/public.js:125 | trailing white space added to a text is counted by the trailing length |
| `Text.NatToDecimal` | reenks-3.0/js/public.js:324 | a count renders as non-empty decimal digits without a leading zero |
| `Text.Digit` | reenks-3.0/js/public.js:324 | a digit value renders as the matching decimal character |
| `Text.DecimalRoundTrip` | reenks-3.0/js/public.js:324-326 | reading the rendered digits back gives the count |
| `Server.FindByEmail` | reenks-3.0/server.js:124-126 | `find` on the accounts yields the first one with that e-mail, or nothing when none has it |
| `Server.Lookup` | reenks-3.0/server.js:162-164 | the account lookup finds a stored account with that e-mail iff one exists |
| `Server.NewAccount` | reenks-3.0/server.js:136-147 | the new account copies the form, stores the hash rather than the password, builds the avatar URL from the encoded name, and falls back to the default bio when the bio is empty |
| `Server.OnRegister` | reenks-3.0/server.js:122-157 | a used e-mail gets `Email уже занят` and a bcrypt failure gets `Ошибка регистрации`, both with no change; otherwise one account is stored under the fresh id, the connection is authenticated, presence, posts and chats are untouched, and `registered` goes to the sender |
| `Server.ChatsWith` | reenks-3.0/server.js:178-180 | the filter keeps exactly the chats listing the user |
| `ServerProps.ChatsWithConcat` | reenks-3.0/server.js:178-180 | the filter of two chat lists one after the other is the two filtered lists one after the other, so order and copies are kept |
| `ServerProps.ChatsWithOne` | reenks-3.0/server.js:178-180 | a single chat is kept iff it lists the user |
| `Server.OnLogin` | reenks-3.0/server.js:160-189 | unknown e-mail or wrong password gets `Неверный email или пароль`, a bcrypt failure gets `Ошибка входа`; on success presence maps the user to this socket, replacing any entry, `logged-in` carries the feed, all presence entries and exactly the user's chats, and `user-online` goes to every other socket |
| `Server.OnCreatePost` | reenks-3.0/server.js:192-207 | ignored when unauthenticated; otherwise exactly one post by the user with no likes or comments is put in front and sent to all sockets |
| `Server.OnlineParticipants` | reenks-3.0/server.js:227-229 | the participants with a presence entry, and no others |
| `ServerProps.OnlineParticipantsConcat` | reenks-3.0/server.js:227-229 | the online participants of two lists one after the other are the two results one after the other, so participant order is kept |
| `ServerProps.OnlineParticipantsOne` | reenks-3.0/server.js:227-229 | a single participant is kept iff it has a presence entry |
| `Server.Fanout` | reenks-3.0/server.js:227-235 | one delivery per online participant, to that participant's presence socket, in participant order |
| `Server.OnSendMessage` | reenks-3.0/server.js:210-236 | ignored unless an authenticated participant of an existing chat sends; otherwise exactly one message is appended to that chat, every other chat, store and the connection are unchanged, and the fan-out delivers it |
| `Server.OnCreateChat` | reenks-3.0/server.js:239-258 | ignored unless authenticated and the target is an account; otherwise stores the chat `[me, target]` with no messages and sends it to those two that are online |
| `Server.OnGameScore` | reenks-3.0/server.js:261-269 | never changes the store; relays the score and game with the sender's profile to all sockets only when authenticated |
| `Server.OnDisconnect` | reenks-3.0/server.js:272-277 | an authenticated connection removes its user's presence, whichever socket it names, and tells the other sockets; otherwise nothing happens |
| `Server.Step` | reenks-3.0/server.js:116-278 | events needing a login are ignored without one; `like-post` and `add-comment` change nothing; only register and login change the connection; accounts are never removed |
| `Server.DemoUsers` | reenks-3.0/server.js:36-65 | the two demo accounts, in insertion order `user1`, `user2` |
| `Server.DemoChats` | reenks-3.0/server.js:91-110 | the chat `chat1` between the two demo users with its two messages, an hour and half an hour old |
| `Server.DemoPost` | reenks-3.0/server.js:68-88 | the demo post by `user1` with 15 likes and one comment by `user2` |
| `Server.InitialStore` | reenks-3.0/server.js:34-111 | the seeded stores: two accounts, one post, one chat, nobody online |
| `ServerProps.MoreAccountsKeepChats` | reenks-3.0/server.js:149 | chat references stay valid when accounts are only added |
| `ServerProps.DemoUsersKeyed` | reenks-3.0/server.js:36-65 | the demo accounts sit under their ids with distinct e-mails |
| `ServerProps.DemoChatsSound` | reenks-3.0/server.js:91-110 | the demo chat lists stored accounts and its messages are by participants |
| `ServerProps.InitialConsistent` | reenks-3.0/server.js:34-111 | the seeded state satisfies the store invariant |
| `ServerProps.AddAccountKeepsUsersKeyed` | reenks-3.0/server.js:124-149 | storing an account with an unused e-mail under its id keeps e-mails unique |
| `ServerProps.RegisterPreserves` | reenks-3.0/server.js:122-157 | registration preserves the store invariant and the connection's account exists |
| `ServerProps.LoginPreserves` | reenks-3.0/server.js:160-189 | login preserves the invariant; presence is only for stored accounts |
| `ServerProps.SendMessagePreserves` | reenks-3.0/server.js:210-236 | every stored message stays authored by a participant of its chat |
| `ServerProps.CreateChatPreserves` | reenks-3.0/server.js:239-258 | a new chat references stored accounts only |
| `ServerProps.StepPreserves` | reenks-3.0/server.js:116-278 | every event preserves the invariant for the acting and for any other connection |
| `ServerProps.ConnOf` | reenks-3.0/server.js:116-119 | an open socket keeps its connection state; a socket never seen before starts with no user |
| `ServerProps.WorldStep` | reenks-3.0/server.js:116-278 | a disconnect forgets the socket's connection, any other event records the handler's new connection for it; other sockets' connections are untouched and no account disappears |
| `ServerProps.Run` | reenks-3.0/server.js:116-278 | over any sequence of events no account disappears, and a connection no event arrives on keeps its state |
| `ServerProps.InitialWorldConsistent` | reenks-3.0/server.js:113-119 | the server starts consistent with no connections |
| `ServerProps.WorldStepPreserves` | reenks-3.0/server.js:116-278 | one event on any socket keeps the whole world consistent |
| `ServerProps.RunPreserves` | reenks-3.0/server.js:116-278 | any sequence of events keeps the whole world consistent |
| `ServerProps.FanoutCarries` | reenks-3.0/server.js:227-235 | every emission of a fan-out is the one event sent to a single socket |
| `ServerProps.FanoutReachesOnlyPresent` | reenks-3.0/server.js:227-235 | a fan-out reaches only presence sockets of participants |
| `ServerProps.FanoutReachesAllPresent` | reenks-3.0/server.js:227-235 | a fan-out reaches every presence socket of a participant |
| `ServerProps.FanoutReaches` | reenks-3.0/server.js:227-235 | a socket receives the fan-out iff it is the presence socket of a participant |
| `ServerProps.NewMessageRouting` | reenks-3.0/server.js:227-235 | `new-message` reaches exactly the online participants' sockets, and nothing else is sent |
| `ServerProps.CreateChatRouting` | reenks-3.0/server.js:242-257 | with a fresh id, exactly one chat is added, last in order, and `chat-created` reaches exactly the online members of the pair |
| `ServerProps.FeedNewestFirst` | reenks-3.0/server.js:205 | two posts in a row end up newest first above the old feed |
| `ServerProps.MessagesInSendOrder` | reenks-3.0/server.js:224 | two messages in a row are appended in sending order |
| `ServerProps.RegisterAddsOneAccount` | reenks-3.0/server.js:133-152 | with a fresh id, the accounts grow by exactly that one id, last in order, and nothing else changes |
| `ServerProps.LoginChatsExactly` | reenks-3.0/server.js:178-180 | the `logged-in` chat list holds exactly the stored chats listing the user |
| `ServerProps.LastLoginWins` | reenks-3.0/server.js:160-189 | after logins on two sockets, presence names the second, and both logins announce `user-online` |
| `ServerProps.StaleDisconnectDropsPresence` | reenks-3.0/server.js:272-277 | disconnecting the earlier of two sockets removes the user's presence while the later one is still connected |
| `ServerProps.PairPresence` | reenks-3.0/server.js:252-254 | some member of a pair is online at a socket iff one of the two is |
| `ServerProps.ScenarioCreateChat` | reenks-3.0/server.js:239-258 | the creator and the online target receive `chat-created`, a bystander does not, and the creator may then send to the chat |
| `ServerProps.ScenarioSendMessage` | reenks-3.0/server.js:210-236 | both online participants receive the message, a bystander does not |
| `Messenger.Initial` | reenks-3.0/js/messenger.js:2-7 | no chats and nothing selected |
| `Messenger.TruncateText` | reenks-3.0/js/messenger.js:276-278 | short texts are kept; longer ones become their first `maxLength` characters plus `...`, of length `maxLength + 3` |
| `Messenger.TruncateIdempotent` | reenks-3.0/js/messenger.js:276-278 | truncating a truncated text changes nothing |
| `Messenger.SelectChat` | reenks-3.0/js/messenger.js:158-162 | an unknown id leaves the state as it was; a known one is selected |
| `Messenger.AddChat` | reenks-3.0/js/messenger.js:103-110 | the chat replaces any entry under its id, and is selected only when nothing was |
| `Messenger.ReceiveMessage` | reenks-3.0/js/messenger.js:234-246 | an unknown chat is ignored; otherwise the message is appended to that chat only, and the user is notified iff it is not the selected chat |
| `Messenger.SendMessage` | reenks-3.0/js/messenger.js:218-232 | without a user, a selected chat or non-blank input nothing is sent; otherwise the trimmed text goes to the selected chat and the box is cleared |
| `Messenger.SentContentIsTrimmed` | reenks-3.0/js/messenger.js:222-229 | what is sent is non-empty and already trimmed |
| `Messenger.OtherUser` | reenks-3.0/js/messenger.js:250 | the first participant that is not the current user, or none when every participant is |
| `Messenger.OtherOfPair` | reenks-3.0/js/messenger.js:250 | in a chat of two distinct users each sees the other |
| `Messenger.NewChat` | reenks-3.0/js/messenger.js:42-46 | only a logged-in user gets to emit `create-chat` for the pick |
| `Feed.Initial` | reenks-3.0/js/public.js:2-7 | logged out, on the news tab, nothing displayed |
| `Feed.CreatePost` | reenks-3.0/js/public.js:117-140 | logged out: to the profile tab without emitting; logged in: emits the trimmed text iff it has 1 to 500 characters, and then clears the box |
| `Feed.AddPostToFeed` | reenks-3.0/js/public.js:142-152 | the new post goes on top of the unchanged feed |
| `Feed.AddAll` | reenks-3.0/js/public.js:250-252 | every payload post is added, with the old feed left below them |
| `Feed.HandleLogin` | reenks-3.0/js/public.js:245-255 | records the user, keeps the tab, and shows the payload reversed above the old feed |
| `Feed.AddAllReverses` | reenks-3.0/js/public.js:250-252 | adding posts one by one on top displays them reversed above the old feed |
| `Feed.LoginShowsReversedFeed` | reenks-3.0/js/public.js:245-252 | logging in on an empty feed displays the payload reversed |
| `Feed.LoginFeedOrderMixed` | reenks-3.0/js/public.js:245-255 | after login with two stored posts and one live post, the display is newest, oldest, newer |
| `Feed.HandleLoginNewestFirst` | reenks-3.0/js/public.js:245-252 | the intended login: the payload is displayed in the order sent, above the old feed |
| `Feed.NewestFirstMirrorsServer` | reenks-3.0/js/public.js:142-152 | with the intended login, later `new-post` events keep the display equal to the server's feed |
| `Feed.HandleRegistration` | reenks-3.0/js/public.js:239-243 | records the user and leaves the feed and tab alone |
| `Feed.RegistrationEnablesPosting` | reenks-3.0/js/public.js:239-243 | straight after registration a valid post is emitted, and logging out forgets the registration |
| `Feed.LikePost` | reenks-3.0/js/public.js:203-209 | emits `like-post` iff logged in |
| `Feed.CommentOnPost` | reenks-3.0/js/public.js:211-224 | emits the trimmed reply iff logged in and the prompt returned non-blank text |
| `Feed.Logout` | reenks-3.0/js/public.js:278-290 | forgets the user and empties the displayed feed |
| `Feed.LogoutUndoesLogin` | reenks-3.0/js/public.js:278-290 | logout undoes login: nothing can be posted or liked, and the next login shows only its own payload |
| `Feed.FormatTime` | reenks-3.0/js/public.js:314-329 | each bucket holds exactly its millisecond range, and the count shown is the floor of the age in that unit |
| `Feed.FormatTimeMonotone` | reenks-3.0/js/public.js:319-326 | an older time never gets a finer bucket or a smaller count within a bucket |
| `Feed.LabelText` | reenks-3.0/js/public.js:323-328 | the Russian label of each bucket, the count in decimal before the unit, and the locale date beyond a week |
| `Feed.AgeLabel` | reenks-3.0/js/public.js:314-329 | for each age the text shown is the floored number of minutes, hours or days, in digits that read back to that number, followed by the unit; just now under a minute and the date from a week on |
| `Auth.Login` | reenks-3.0/js/auth.js:50-60 | emits exactly the two fields as read iff both are non-empty |
| `Auth.Register` | reenks-3.0/js/auth.js:62-85 | emits the whole form iff the five required fields are non-empty and the password has at least 6 characters |
| `Auth.BlankValuesPass` | reenks-3.0/js/auth.js:54-74 | blank but non-empty values pass, and the bio never matters |
| `Game.NewGame` | reenks-3.0/js/game.js:2-42 | idle, score 0, three lives, level 1, spawn every 2000 ms, the saved record or 0, the player centred near the bottom |
| `Game.ResizeCanvas` | reenks-3.0/js/game.js:91-99 | the width is the container's width less 40, at most 800; below 40 the out-of-range width gives the canvas default 300; height 500; nothing else changes |
| `Game.ResizeLastWins` | reenks-3.0/js/game.js:91-99 | only the latest resize matters, and the next round centres the player on the new width |
| `Game.StartGame` | reenks-3.0/js/game.js:101-119 | playing, score 0, three lives, level 1, every object list empty, player centred; record and spawn rate carried over |
| `Game.TogglePause` | reenks-3.0/js/game.js:121-130 | playing and paused swap, idle and game over are left alone |
| `Game.TogglePauseInvolution` | reenks-3.0/js/game.js:121-130 | pausing twice restores the game |
| `Game.ResetGame` | reenks-3.0/js/game.js:132-138 | only the phase changes, to idle |
| `Game.EndGame` | reenks-3.0/js/game.js:390-396 | only the phase changes, to game over |
| `Game.CollidingSymmetric` | reenks-3.0/js/game.js:326-331 | collision does not depend on argument order |
| `Game.CollidingIffSharedPoint` | reenks-3.0/js/game.js:326-331 | boxes of positive size collide iff some point is strictly inside both |
| `Game.TouchingIsNotColliding` | reenks-3.0/js/game.js:326-331 | boxes that only share an edge do not collide |
| `Game.MapFilter` | reenks-3.0/js/game.js:176-210 | a move-then-keep filter keeps exactly the moved objects that pass, never more than before |
| `Game.MapFilterKeepsAll` | reenks-3.0/js/game.js:176-210 | nothing is dropped iff every moved object passes |
| `Game.MapFilterConcat` | reenks-3.0/js/game.js:176-210 | the filter of two lists one after the other is the two results one after the other, so order and copies are kept |
| `Game.MapFilterOne` | reenks-3.0/js/game.js:176-210 | one object stays, moved, iff the moved object passes |
| `Game.MoveBullets` | reenks-3.0/js/game.js:176-181 | bullets rise by their speed; exactly those still below the top edge remain |
| `Game.MoveParticles` | reenks-3.0/js/game.js:196-203 | particles move and lose one life; exactly those with life left remain, never more than before |
| `Game.ParticlesAllSurvive` | reenks-3.0/js/game.js:196-203 | the particle count is kept iff no particle was on its last life |
| `Game.MoveEnemies` | reenks-3.0/js/game.js:183-194 | enemies fall, asteroids spin; exactly those above the bottom edge remain |
| `Game.MovePowerUps` | reenks-3.0/js/game.js:205-210 | power-ups fall; exactly those above the bottom edge remain |
| `Game.MovesKeepOrder` | reenks-3.0/js/game.js:176-210 | bullets, enemies, particles and power-ups each keep their survivors in order, one moved copy each |
| `Game.MoveAll` | reenks-3.0/js/game.js:149-155 | the frame moves every object list and leaves the numbers alone |
| `Game.RemoveAt` | reenks-3.0/js/game.js:273-274 | `splice(i, 1)` removes exactly that element and keeps the rest in order |
| `Game.HitEnemy` | reenks-3.0/js/game.js:268-299 | enemy and bullet removed, 50 for a UFO and 20 otherwise, record is the max of old record and score, `game-score` with the record sent iff logged in and the record was beaten, a dropped power-up at the enemy's place |
| `Game.PlayerHit` | reenks-3.0/js/game.js:304-315 | the enemy is removed, one life lost, and the game is over once no life is left |
| `Game.ApplyPowerUp` | reenks-3.0/js/game.js:361-380 | an extra life up to five; the other kinds change nothing |
| `Game.CollectPowerUp` | reenks-3.0/js/game.js:318-323 | the power-up is removed and applied |
| `Game.UpdateLevel` | reenks-3.0/js/game.js:382-388 | the level becomes the larger of itself and score/500 + 1; a raise sets the spawn interval to max(500, 2000 - 100 * level) |
| `Game.UpdateLevelIdempotent` | reenks-3.0/js/game.js:382-388 | a second level check changes nothing |
| `Game.Apply` | reenks-3.0/js/game.js:140-159 | frame work and collisions do nothing unless playing; only a bullet hit sends a score |
| `Game.NewGameSound` | reenks-3.0/js/game.js:2-42 | a new game satisfies the bookkeeping invariant |
| `Game.ApplySound` | reenks-3.0/js/game.js:101-388 | every action keeps score, record, level, lives and spawn rate within their bounds, never lowers the record, and a sent score is the new, higher record |
| `Game.Run` | reenks-3.0/js/game.js:140-147 | a run sends at most one score per action |
| `Game.RunScoresIncrease` | reenks-3.0/js/game.js:281-292 | along any run the scores sent strictly increase, each beats the starting record and none exceeds the final one |
| `Game.ItemOf` | reenks-3.0/js/game.js:525-531 | a leaderboard line shows the player's first name, the game and the score |
| `Game.UpdateLeaderboard` | reenks-3.0/js/game.js:521-539 | the new line comes first, the old lines follow, the last is dropped beyond ten, and a board of at most ten stays so |
| `Game.BoardShowsLatest` | reenks-3.0/js/game.js:533-538 | from empty, the board is always the ten latest lines, newest first |
| `EndToEnd.PublishedPostIsTrimmed` | reenks-3.0/js/public.js:125-137 | a published post is stored first with the trimmed text of 1 to 500 characters and sent to all |
| `EndToEnd.LikeAndCommentAreDropped` | reenks-3.0/js/public.js:203-224 | whatever the like and comment buttons emit, the server ignores |
| `EndToEnd.SentMessageIsStored` | reenks-3.0/js/messenger.js:222-229 | a sent chat message is stored last with non-empty trimmed text |
| `EndToEnd.SentMessageIsRouted` | reenks-3.0/server.js:227-235 | a sent chat message reaches exactly the chat's online participants |
| `EndToEnd.ReceivedMessageMatchesServer` | reenks-3.0/js/messenger.js:234-238 | a receiving client in sync with the server stays in sync |
| `EndToEnd.PickedChatIsCreated` | reenks-3.0/js/messenger.js:99-101 | the picker's `create-chat` stores a new empty chat of the two accounts, last in order, announced to exactly those two that are online |
| `EndToEnd.RecordReachesLeaderboard` | reenks-3.0/js/game.js:287-292 | a record beaten while logged in is broadcast unchanged and tops every leaderboard |
| `EndToEnd.RegisterThenLogin` | reenks-3.0/js/auth.js:50-85 | registering and then logging in with the same credentials authenticates the new account on the second socket |

## Left out

- Transport: socket.io and Express, CORS, static files and the HTTP routes `/api/stats`, `/api/users` and `*`. Emissions are values.
- bcrypt, `uuidv4`, `new Date()`/`Date.now()` and `encodeURIComponent` are `Env` parameters. The fresh id is assumed unused only by the lemmas that need it.
- The `async` interleaving of `register` and `login`. Each handler is atomic.
- The `onlineUsers` entry spreads the profile next to the socket id; the model keeps the profile as one field.
- DOM and rendering: `innerHTML`, `escapeHTML`, canvas drawing, `showNotification`, modals, `updateUIAfterAuth`, `localStorage` writes, `setTimeout`, `requestAnimationFrame`, `navigator.share`, `prompt` (its reply is a parameter).
- `getOtherUser`'s hard-coded profile table and the hard-coded pick list of `showNewChatModal`. Only the participant choice and the emit are modelled.
- Messenger: the selected chat is held by id; the source holds the chat object, which `receiveMessage` mutates through the map, with the same effect.
- `handleLogin` takes the payload's feed only. The `onlineUsers` and `chats` parts are not read by the client.
- Game: player steering (`movePlayer`), `shoot` with its muzzle flash, `spawnEnemies`/`createEnemy`, explosions, and the random power-up roll. The roll is a parameter of `HitEnemy`. The rest is random or keyboard-driven floating-point motion.
- Game: the iteration order of `checkCollisions`, which splices the lists it is iterating. The model applies one collision at a time, while playing, to boxes that overlap.
- Game: the rapid-fire and shield power-ups, whose timers have empty callbacks and change no state.
- `switchTab` effects other than `currentTab`.
- String lengths count Unicode characters, not UTF-16 code units. `truncateText` (its `length` test and `substring`), `length > 500` and `password.length < 6` differ from the browser on astral characters such as emoji. `trim` is unaffected: every character it strips is in the Basic Multilingual Plane.
- The server's like and comment behaviour: no handlers exist.
- `InitialStore` reads the clock once; `initSampleData` reads `new Date()` and `Date.now()` separately, which can differ by a few milliseconds.
- Payloads are typed: the server relays whatever JSON a client sends (a `game-score` score that is not a number, say), while the model's events carry strings and integers only.

## Findings

| source | as written | input that shows it | evidently intended | confidence | as-written member | corrected member |
|---|---|---|---|---|---|---|
| reenks-3.0/js/public.js:250-252 | `handleLogin` puts each post of the newest-first `feed` on top in turn, so the stored posts appear oldest first | log in with stored posts `[newer, older]`, then receive `newest`: the display is `[newest, older, newer]` | display the feed in the order the server sends it, so that later `new-post` events keep the newest on top | high, not executed | `Feed.LoginFeedOrderMixed` | `Feed.HandleLoginNewestFirst`, `Feed.NewestFirstMirrorsServer` |
