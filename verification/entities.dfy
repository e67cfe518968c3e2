/** The records the server keeps in memory and sends to clients. Times are
    milliseconds since the epoch, as `Date` values carry them. */
module Entities {
  import opened Prelude

  type UserId = string
  type SocketId = string
  type ChatId = string
  type PostId = string
  type Time = int

  /** The public part of a user, the only part ever sent to other clients. */
  datatype Profile = Profile(
    firstName: string,
    lastName: string,
    username: string,
    avatar: string,
    bio: string)

  /** A stored account; `password` holds the bcrypt hash, never the password. */
  datatype User = User(id: UserId, email: string, password: string, profile: Profile)

  datatype Comment = Comment(
    id: string,
    authorId: UserId,
    author: Profile,
    content: string,
    createdAt: Time)

  datatype Post = Post(
    id: PostId,
    authorId: UserId,
    author: Profile,
    content: string,
    likes: nat,
    comments: seq<Comment>,
    createdAt: Time)

  /** A chat message; the seeded demo messages carry no `author` record. */
  datatype Message = Message(
    id: string,
    authorId: UserId,
    author: Option<Profile>,
    content: string,
    timestamp: Time)

  datatype Chat = Chat(id: ChatId, participants: seq<UserId>, messages: seq<Message>)

  /** A value of the presence map: the socket a user was last seen on, with
      the profile fields spread beside it. */
  datatype OnlineEntry = OnlineEntry(socketId: SocketId, profile: Profile)
}

/** The event protocol between browser and server: what a client sends, and
    what the server emits to whom. */
module Protocol {
  import opened Entities

  /** The fields the registration form sends. A missing `bio` is the empty
      string. */
  datatype RegisterData = RegisterData(
    firstName: string,
    lastName: string,
    username: string,
    email: string,
    password: string,
    bio: string)

  /** Client-to-server events, and the connection closing. */
  datatype Inbound =
    | Register(data: RegisterData)
    | Login(email: string, password: string)
    | CreatePost(content: string)
    | SendMessage(chatId: ChatId, content: string)
    | CreateChat(targetUserId: UserId)
    | GameScore(score: int, game: string)
    | LikePost(postId: PostId)
    | AddComment(postId: PostId, content: string)
    | Disconnect

  /** Server-to-client events with their payloads. */
  datatype Outbound =
    | AuthError(reason: string)
    | Registered(user: Profile)
    | LoggedIn(user: Profile, feed: seq<Post>, onlineUsers: seq<OnlineEntry>, chats: seq<Chat>)
    | UserOnline(who: Profile)
    | UserOffline(who: Profile)
    | NewPost(post: Post)
    | NewMessage(chatId: ChatId, message: Message)
    | ChatCreated(chat: Chat)
    | NewHighscore(player: Profile, score: int, game: string)

  /** Addressing: `io.to(id)` and `socket.emit` reach one socket, `io.emit`
      reaches every socket, `socket.broadcast.emit` every socket but the
      sender's. */
  datatype Target = ToSocket(id: SocketId) | All | AllExcept(sender: SocketId)

  datatype Emission = Emission(target: Target, event: Outbound)

  /** Whether a delivery to `t` arrives at socket `s`. */
  predicate Reaches(t: Target, s: SocketId)
  {
    match t
    case ToSocket(id) => id == s
    case All => true
    case AllExcept(sender) => sender != s
  }

  /** Whether any emission of `out` arrives at socket `s`. */
  predicate AnyReaches(out: seq<Emission>, s: SocketId)
  {
    exists i :: 0 <= i < |out| && Reaches(out[i].target, s)
  }
}
