/** The main client (`REENKSApp`): who is logged in, the selected tab, the
    displayed feed (top first), the guards in front of the post, like and
    comment actions, and the relative-time labels. */
module Feed {
  import opened Prelude
  import opened Entities
  import opened Protocol
  import opened Text

  datatype App = App(currentUser: Option<Profile>, currentTab: string, feed: seq<Post>)

  const MaxPostLength: nat := 500

  function Initial(): (app: App)
    ensures app.currentUser.None? && app.currentTab == "news" && app.feed == []
  {
    App(None, "news", [])
  }

  /** The result of a client action that may emit: the new client state,
      what is emitted, and the text left in the input box. */
  datatype Attempt = Attempt(app: App, emit: Option<Inbound>, input: string)

  /** `createPost`: a logged-out user is sent to the profile tab; otherwise
      the trimmed text is published when it has 1 to 500 characters, and the
      box is cleared. */
  function CreatePost(app: App, input: string): (r: Attempt)
    ensures app.currentUser.None? ==> r == Attempt(app.(currentTab := "profile"), None, input)
    ensures app.currentUser.Some? ==> r.app == app
    ensures app.currentUser.Some? ==>
              (r.emit.Some? <==> 1 <= |Trim(input)| <= MaxPostLength)
    ensures r.emit.Some? ==> r.emit.value == Inbound.CreatePost(Trim(input)) && r.input == ""
    ensures r.emit.None? ==> r.input == input
  {
    if app.currentUser.None? then Attempt(app.(currentTab := "profile"), None, input)
    else
      var content := Trim(input);
      if content == "" then Attempt(app, None, input)
      else if |content| > MaxPostLength then Attempt(app, None, input)
      else Attempt(app, Some(Inbound.CreatePost(content)), "")
  }

  /** `addPostToFeed` (on `new-post`): the post goes on top. */
  function AddPostToFeed(feed: seq<Post>, post: Post): (r: seq<Post>)
    ensures |r| == |feed| + 1 && r[0] == post && r[1..] == feed
  {
    [post] + feed
  }

  /** The `forEach` of `handleLogin`: each post of the payload in turn is put
      on top of the displayed feed. */
  function AddAll(feed: seq<Post>, posts: seq<Post>): (r: seq<Post>)
    ensures |r| == |feed| + |posts|
    ensures r[|posts|..] == feed
    decreases |posts|
  {
    if posts == [] then feed else AddAll(AddPostToFeed(feed, posts[0]), posts[1..])
  }

  /** `handleLogin` (on `logged-in`): stores the user and adds the payload's
      feed without clearing what is displayed. */
  function HandleLogin(app: App, user: Profile, posts: seq<Post>): (r: App)
    ensures r.currentUser == Some(user) && r.currentTab == app.currentTab
    ensures r.feed == Reverse(posts) + app.feed
  {
    AddAllReverses(app.feed, posts);
    App(Some(user), app.currentTab, AddAll(app.feed, posts))
  }

  /** Adding posts one by one on top displays them in reverse order above
      the old feed. */
  lemma {:induction false} AddAllReverses(feed: seq<Post>, posts: seq<Post>)
    ensures AddAll(feed, posts) == Reverse(posts) + feed
    decreases |posts|
  {
    if posts != [] {
      AddAllReverses(AddPostToFeed(feed, posts[0]), posts[1..]);
      assert Reverse(posts) == Reverse(posts[1..]) + [posts[0]];
    }
  }

  /** Logging in on an empty feed shows the payload's feed reversed. */
  lemma LoginShowsReversedFeed(app: App, user: Profile, posts: seq<Post>)
    requires app.feed == []
    ensures HandleLogin(app, user, posts).feed == Reverse(posts)
    ensures HandleLogin(app, user, posts).currentUser == Some(user)
  {
    AddAllReverses([], posts);
    assert Reverse(posts) + [] == Reverse(posts);
  }

  /** The server sends its feed newest first, and later `new-post` events go
      on top. As written, after logging in with two stored posts and
      receiving a third, the newest post is on top but the two older ones are
      in oldest-first order below it. */
  lemma LoginFeedOrderMixed(app: App, user: Profile, older: Post, newer: Post, newest: Post)
    requires app.feed == []
    ensures AddPostToFeed(HandleLogin(app, user, [newer, older]).feed, newest) == [newest, older, newer]
  {
    LoginShowsReversedFeed(app, user, [newer, older]);
  }

  /** The order the code evidently intends: the payload, already newest
      first, is displayed as sent, by adding its posts from last to first. */
  function HandleLoginNewestFirst(app: App, user: Profile, posts: seq<Post>): (r: App)
    ensures r.currentUser == Some(user)
    ensures r.feed == posts + app.feed
    decreases |posts|
  {
    if posts == [] then App(Some(user), app.currentTab, app.feed)
    else
      var r := HandleLoginNewestFirst(app, user, posts[1..]);
      App(Some(user), app.currentTab, AddPostToFeed(r.feed, posts[0]))
  }

  /** With the intended order, a client that logs in on an empty feed and
      then receives `new-post` events displays exactly the server's feed:
      both sides put each new post in front. */
  lemma {:induction false} NewestFirstMirrorsServer(app: App, user: Profile, posts: seq<Post>, later: seq<Post>)
    requires app.feed == []
    ensures AddAll(HandleLoginNewestFirst(app, user, posts).feed, later) == Reverse(later) + posts
  {
    AddAllReverses(HandleLoginNewestFirst(app, user, posts).feed, later);
    assert posts + [] == posts;
  }

  function HandleRegistration(app: App, user: Profile): (r: App)
    ensures r.currentUser == Some(user) && r.feed == app.feed && r.currentTab == app.currentTab
  {
    app.(currentUser := Some(user))
  }

  /** Logging out undoes a login: the user and the displayed feed are gone,
      nothing can be posted or liked, and logging in again shows only the new
      payload (reversed, as `handleLogin` adds it). */
  lemma LogoutUndoesLogin(app: App, user: Profile, posts: seq<Post>, input: string, postId: PostId)
    ensures Logout(HandleLogin(app, user, posts)) == Logout(app)
    ensures HandleLogin(Logout(app), user, posts).feed == Reverse(posts)
    ensures CreatePost(Logout(app), input).emit.None?
    ensures LikePost(Logout(app), postId).None?
  {
  }

  /** Straight after registration the user can post, and logging out
      forgets the registration. */
  lemma RegistrationEnablesPosting(app: App, user: Profile, input: string)
    requires 1 <= |Trim(input)| <= MaxPostLength
    ensures CreatePost(HandleRegistration(app, user), input).emit == Some(Inbound.CreatePost(Trim(input)))
    ensures Logout(HandleRegistration(app, user)) == Logout(app)
  {
  }

  /** `likePost`: only a logged-in user sends `like-post`. */
  function LikePost(app: App, postId: PostId): (r: Option<Inbound>)
    ensures r.Some? <==> app.currentUser.Some?
    ensures r.Some? ==> r.value == Inbound.LikePost(postId)
  {
    if app.currentUser.None? then None else Some(Inbound.LikePost(postId))
  }

  /** `commentOnPost`: `reply` is what the prompt returned (`None` when it
      was cancelled). Only a logged-in user with a non-blank reply sends
      `add-comment`, carrying the trimmed reply. */
  function CommentOnPost(app: App, postId: PostId, reply: Option<string>): (r: Option<Inbound>)
    ensures r.Some? <==> app.currentUser.Some? && reply.Some? && !AllSpace(reply.value)
    ensures r.Some? ==> r.value == Inbound.AddComment(postId, Trim(reply.value))
  {
    if app.currentUser.None? then None
    else match reply
      case None => None
      case Some(text) =>
        if text == "" || Trim(text) == "" then None
        else Some(Inbound.AddComment(postId, Trim(text)))
  }

  /** `logout`: forgets the user and empties the displayed feed. */
  function Logout(app: App): (r: App)
    ensures r.currentUser.None? && r.feed == [] && r.currentTab == app.currentTab
  {
    App(None, app.currentTab, [])
  }

  // ----- relative time ------------------------------------------------------

  const MinuteMs: int := 60000
  const HourMs: int := 3600000
  const DayMs: int := 86400000

  /** The buckets of `formatTime`. */
  datatype Label = JustNow | MinutesAgo(n: nat) | HoursAgo(n: nat) | DaysAgo(n: nat) | OnDate

  /** `formatTime`: `diff` is the age in milliseconds (negative for a time in
      the future). `Math.floor` of a division by a positive constant is
      Dafny's `/`. */
  function FormatTime(diff: int): (r: Label)
    ensures r == JustNow <==> diff < MinuteMs
    ensures r.MinutesAgo? <==> MinuteMs <= diff < HourMs
    ensures r.HoursAgo? <==> HourMs <= diff < DayMs
    ensures r.DaysAgo? <==> DayMs <= diff < 7 * DayMs
    ensures r == OnDate <==> 7 * DayMs <= diff
    ensures r.MinutesAgo? ==> 1 <= r.n < 60 && r.n * MinuteMs <= diff < (r.n + 1) * MinuteMs
    ensures r.HoursAgo? ==> 1 <= r.n < 24 && r.n * HourMs <= diff < (r.n + 1) * HourMs
    ensures r.DaysAgo? ==> 1 <= r.n < 7 && r.n * DayMs <= diff < (r.n + 1) * DayMs
  {
    var minutes := diff / MinuteMs;
    var hours := diff / HourMs;
    var days := diff / DayMs;
    if minutes < 1 then JustNow
    else if minutes < 60 then MinutesAgo(minutes)
    else if hours < 24 then HoursAgo(hours)
    else if days < 7 then DaysAgo(days)
    else OnDate
  }

  function Rank(l: Label): nat
  {
    match l
    case JustNow => 0
    case MinutesAgo(_) => 1
    case HoursAgo(_) => 2
    case DaysAgo(_) => 3
    case OnDate => 4
  }

  /** An older timestamp never gets a finer bucket, and within a bucket a
      larger age never gets a smaller count. */
  lemma FormatTimeMonotone(d1: int, d2: int)
    requires d1 <= d2
    ensures Rank(FormatTime(d1)) <= Rank(FormatTime(d2))
    ensures FormatTime(d1).MinutesAgo? && FormatTime(d2).MinutesAgo? ==> FormatTime(d1).n <= FormatTime(d2).n
    ensures FormatTime(d1).HoursAgo? && FormatTime(d2).HoursAgo? ==> FormatTime(d1).n <= FormatTime(d2).n
    ensures FormatTime(d1).DaysAgo? && FormatTime(d2).DaysAgo? ==> FormatTime(d1).n <= FormatTime(d2).n
  {
    DivMonotone(d1, d2, MinuteMs);
    DivMonotone(d1, d2, HourMs);
    DivMonotone(d1, d2, DayMs);
  }

  /** The text shown for a label; `localeDate` is what
      `toLocaleDateString('ru-RU')` returns. */
  function LabelText(l: Label, localeDate: string): (r: string)
    ensures l.OnDate? ==> r == localeDate
    ensures l.MinutesAgo? ==> r == NatToDecimal(l.n) + " мин назад"
    ensures l.HoursAgo? ==> r == NatToDecimal(l.n) + " ч назад"
    ensures l.DaysAgo? ==> r == NatToDecimal(l.n) + " дн назад"
    ensures l.JustNow? ==> r == "только что"
  {
    match l
    case JustNow => "только что"
    case MinutesAgo(n) => NatToDecimal(n) + " мин назад"
    case HoursAgo(n) => NatToDecimal(n) + " ч назад"
    case DaysAgo(n) => NatToDecimal(n) + " дн назад"
    case OnDate => localeDate
  }

  /** What the post shows for an age of `diff` milliseconds: the floored
      number of minutes, hours or days as decimal digits that read back to
      that number, followed by the unit; "just now" below a minute and the
      date from a week on. */
  lemma AgeLabel(diff: int, localeDate: string)
    ensures diff < MinuteMs ==> LabelText(FormatTime(diff), localeDate) == "только что"
    ensures MinuteMs <= diff < HourMs ==>
              && LabelText(FormatTime(diff), localeDate) == NatToDecimal(diff / MinuteMs) + " мин назад"
              && DecimalValue(NatToDecimal(diff / MinuteMs)) == diff / MinuteMs
    ensures HourMs <= diff < DayMs ==>
              && LabelText(FormatTime(diff), localeDate) == NatToDecimal(diff / HourMs) + " ч назад"
              && DecimalValue(NatToDecimal(diff / HourMs)) == diff / HourMs
    ensures DayMs <= diff < 7 * DayMs ==>
              && LabelText(FormatTime(diff), localeDate) == NatToDecimal(diff / DayMs) + " дн назад"
              && DecimalValue(NatToDecimal(diff / DayMs)) == diff / DayMs
    ensures 7 * DayMs <= diff ==> LabelText(FormatTime(diff), localeDate) == localeDate
  {
    if MinuteMs <= diff < HourMs {
      DecimalRoundTrip(diff / MinuteMs);
    } else if HourMs <= diff < DayMs {
      DecimalRoundTrip(diff / HourMs);
    } else if DayMs <= diff < 7 * DayMs {
      DecimalRoundTrip(diff / DayMs);
    }
  }
}
