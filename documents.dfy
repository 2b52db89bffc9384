/** The three collections of the document store, shaped as the schemas in
    models/user.js, models/feedPost.js and models/guestBookMessage.js, and the
    consistency rules the handlers keep between them. */
module Documents {
  import opened Http
  import opened Lists

  /** Document ids are opaque to the handlers; naturals stand in for ObjectIds. */
  type UserId = nat
  type PostId = nat
  type MessageId = nat

  datatype Option<+T> = None | Some(value: T)

  datatype User = User(
    firstName: string,
    lastName: string,
    birthDate: string,
    gender: string,
    email: string,
    password: string,
    image: Option<string>,
    description: Option<string>,
    following: seq<UserId>,
    feedPosts: seq<PostId>,
    guestBookMessagesReceived: seq<MessageId>,
    guestBookMessagesSent: seq<MessageId>)

  /** A user document as read with the "-password" projection. */
  datatype Profile = Profile(
    id: UserId,
    firstName: string,
    lastName: string,
    birthDate: string,
    gender: string,
    email: string,
    image: Option<string>,
    description: Option<string>,
    following: seq<UserId>,
    feedPosts: seq<PostId>,
    guestBookMessagesReceived: seq<MessageId>,
    guestBookMessagesSent: seq<MessageId>)

  /** A user document as read with the "firstName lastName image" projection. */
  datatype Summary = Summary(id: UserId, firstName: string, lastName: string, image: Option<string>)

  datatype FeedPost = FeedPost(content: string, creator: UserId, created: nat)

  datatype GuestBookMessage = GuestBookMessage(
    sender: UserId,
    receiver: UserId,
    content: string,
    created: nat,
    answerTo: Option<MessageId>)

  /** The whole store; `nextId` is the next id handed to a new post or message. */
  datatype Database = Database(
    users: map<UserId, User>,
    posts: map<PostId, FeedPost>,
    messages: map<MessageId, GuestBookMessage>,
    nextId: nat)

  /** A handler's answer together with the store it leaves behind. */
  datatype Outcome<+T> = Outcome(result: Result<T>, after: Database)

  /** A user as the handlers answer it: the `-password` projection, with the id. */
  function ProfileOf(id: UserId, u: User): (p: Profile) {
    Profile(id, u.firstName, u.lastName, u.birthDate, u.gender, u.email, u.image, u.description,
            u.following, u.feedPosts, u.guestBookMessagesReceived, u.guestBookMessagesSent)
  }

  /** The `firstName lastName image` projection of the follow handlers, with the id. */
  function SummaryOf(id: UserId, u: User): (s: Summary) {
    Summary(id, u.firstName, u.lastName, u.image)
  }

  /** The `-password` projection hides the password and nothing else: two users
      of one id give the same profile exactly when they differ at most in the password. */
  lemma ProfileHidesOnlyPassword(id: UserId, u: User, v: User)
    ensures ProfileOf(id, u) == ProfileOf(id, v) <==> u.(password := v.password) == v
  {
  }

  /** The summary shows the names and the image and nothing else. */
  lemma SummaryShowsNamesAndImage(id: UserId, u: User, v: User)
    ensures SummaryOf(id, u) == SummaryOf(id, v) <==>
      u.firstName == v.firstName && u.lastName == v.lastName && u.image == v.image
  {
  }

  /** Every followed id names a user. */
  ghost predicate FollowGraphClosed(users: map<UserId, User>) {
    forall u, t :: u in users && t in users[u].following ==> t in users
  }

  /** Nobody follows the same user twice. */
  ghost predicate FollowingNoDup(users: map<UserId, User>) {
    forall u :: u in users ==> NoDup(users[u].following)
  }

  /** Every post was given an id below `nextId`, and its creator exists and lists it. */
  ghost predicate PostsListed(db: Database) {
    forall p :: p in db.posts ==>
      p < db.nextId && db.posts[p].creator in db.users && p in db.users[db.posts[p].creator].feedPosts
  }

  /** Every id in a user's `feedPosts` names a post of that user. */
  ghost predicate FeedPostsGenuine(db: Database) {
    forall u, p :: u in db.users && p in db.users[u].feedPosts ==> p in db.posts && db.posts[p].creator == u
  }

  /** No user lists a post twice. */
  ghost predicate FeedPostsNoDup(users: map<UserId, User>) {
    forall u :: u in users ==> NoDup(users[u].feedPosts)
  }

  /** A user's `feedPosts` lists exactly the posts whose creator is that user,
      each once, and every post was given an id below `nextId`. */
  ghost predicate PostsLinked(db: Database) {
    PostsListed(db) && FeedPostsGenuine(db) && FeedPostsNoDup(db.users)
  }

  /** Every message was given an id below `nextId` and was sent by a user. */
  ghost predicate MessagesIssued(db: Database) {
    forall m :: m in db.messages ==> m < db.nextId && db.messages[m].sender in db.users
  }

  ghost predicate Consistent(db: Database) {
    && FollowGraphClosed(db.users)
    && FollowingNoDup(db.users)
    && PostsLinked(db)
    && MessagesIssued(db)
  }

  /** A change that keeps the user ids, every user's `following` and
      `feedPosts`, the posts, the messages and the id counter keeps the store consistent. */
  lemma SameLinksConsistent(db: Database, db': Database)
    requires Consistent(db)
    requires db'.users.Keys == db.users.Keys
    requires db'.posts == db.posts && db'.messages == db.messages && db'.nextId == db.nextId
    requires forall u :: u in db.users ==>
      db'.users[u].following == db.users[u].following && db'.users[u].feedPosts == db.users[u].feedPosts
    ensures Consistent(db')
  {
  }
}
