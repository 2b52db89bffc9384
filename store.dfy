/** The request handlers of the three controllers as methods on one store
    whose collections they read and change in place. `actor` is always the
    user id carried by the request's verified token. */
module Backend {
  import opened Http
  import opened Lists
  import opened Order
  import opened Documents
  import Users
  import FeedPosts
  import GuestBook

  class Store {
    var users: map<UserId, User>
    var posts: map<PostId, FeedPost>
    var messages: map<MessageId, GuestBookMessage>
    var nextId: nat

    function State(): (db: Database)
      reads this
    {
      Database(users, posts, messages, nextId)
    }

    ghost predicate Valid()
      reads this
    {
      Consistent(State())
    }

    /** A store holding the documents of `db`, as left by sign-ups and earlier requests. */
    constructor (db: Database)
      requires Consistent(db)
      ensures Valid() && State() == db
    {
      users, posts, messages, nextId := db.users, db.posts, db.messages, db.nextId;
    }

    /** getUsers: every user without the password; no users at all is an error. */
    method GetUsers() returns (r: Result<map<UserId, Profile>>)
      ensures r.Err? <==> users == map[]
      ensures r.Err? ==> r.code == InternalServerError
      ensures r.Ok? ==> r.value.Keys == users.Keys
      ensures r.Ok? ==> forall id :: id in users ==> r.value[id] == ProfileOf(id, users[id])
    {
      if |users| < 1 {
        return Err(InternalServerError);
      }
      r := Ok(map id | id in users :: ProfileOf(id, users[id]));
    }

    /** getUserById: a missing user is answered with 500. */
    method GetUserById(userId: UserId) returns (r: Result<Profile>)
      ensures r.Err? <==> userId !in users
      ensures r.Err? ==> r.code == InternalServerError
      ensures r.Ok? ==> r.value == ProfileOf(userId, users[userId])
    {
      if userId !in users {
        return Err(InternalServerError);
      }
      r := Ok(ProfileOf(userId, users[userId]));
    }

    method UpdateUserImage(actor: UserId, userId: UserId, upload: Option<string>) returns (r: Result<Profile>)
      requires Valid()
      modifies this
      ensures Valid()
      ensures Outcome(r, State()) == Users.UpdateImage(old(State()), actor, userId, upload)
    {
      Users.UpdateImageKeepsConsistent(State(), actor, userId, upload);
      var loaded := Users.LoadForEdit(users, actor, userId);
      if loaded.Err? {
        return Err(loaded.code);
      }
      var user := loaded.value.(image := Users.StoredImage(upload));
      users := users[userId := user];
      r := Ok(ProfileOf(userId, user));
    }

    method UpdateUserInfo(actor: UserId, userId: UserId, edit: Users.ProfileEdit) returns (r: Result<Profile>)
      requires Valid()
      modifies this
      ensures Valid()
      ensures Outcome(r, State()) == Users.UpdateInfo(old(State()), actor, userId, edit)
    {
      Users.UpdateInfoKeepsConsistent(State(), actor, userId, edit);
      if !Users.ValidEdit(edit) {
        return Err(UnprocessableEntity);
      }
      var loaded := Users.LoadForEdit(users, actor, userId);
      if loaded.Err? {
        return Err(loaded.code);
      }
      var user := loaded.value;
      user := user.(firstName := edit.firstName, lastName := edit.lastName, birthDate := edit.birthDate,
                    gender := edit.gender, description := Some(edit.description));
      users := users[userId := user];
      r := Ok(ProfileOf(userId, user));
    }

    method FollowUserById(actor: UserId, userToFollowId: UserId) returns (r: Result<Summary>)
      requires Valid()
      modifies this
      ensures Valid()
      ensures Outcome(r, State()) == Users.Follow(old(State()), actor, userToFollowId)
    {
      Users.FollowKeepsConsistent(State(), actor, userToFollowId);
      if userToFollowId !in users || actor !in users {
        return Err(NotFound);
      }
      var userToFollow := users[userToFollowId];
      var authUser := users[actor];
      if userToFollowId in authUser.following {
        return Err(Unauthorized);
      }
      users := users[actor := authUser.(following := authUser.following + [userToFollowId])];
      r := Ok(SummaryOf(userToFollowId, userToFollow));
    }

    method UnfollowUserById(actor: UserId, userToUnfollowId: UserId) returns (r: Result<Summary>)
      requires Valid()
      modifies this
      ensures Valid()
      ensures Outcome(r, State()) == Users.Unfollow(old(State()), actor, userToUnfollowId)
    {
      Users.UnfollowKeepsConsistent(State(), actor, userToUnfollowId);
      if userToUnfollowId !in users || actor !in users {
        return Err(NotFound);
      }
      var userToUnfollow := users[userToUnfollowId];
      var authUser := users[actor];
      if userToUnfollowId in authUser.following {
        users := users[actor := authUser.(following := Pull(authUser.following, userToUnfollowId))];
      }
      r := Ok(SummaryOf(userToUnfollowId, userToUnfollow));
    }

    /** getFeedPostsByUserId: scans the post table and keeps the listing newest first. */
    method GetFeedPostsByUserId(userId: UserId) returns (r: Result<seq<PostId>>)
      ensures r.Err? <==> forall id :: id in posts ==> posts[id].creator != userId
      ensures r.Err? ==> r.code == InternalServerError
      ensures r.Ok? ==> FeedPosts.IsUserListing(posts, userId, r.value)
    {
      var created := FeedPosts.CreatedOf(posts);
      var pending := posts.Keys;
      var found: seq<PostId> := [];
      while pending != {}
        invariant pending <= posts.Keys
        invariant NoDup(found) && NewestFirst(found, created)
        invariant forall id :: id in found <==> id in posts && id !in pending && posts[id].creator == userId
        decreases pending
      {
        var id :| id in pending;
        if posts[id].creator == userId {
          found := Insert(found, id, created);
        }
        pending := pending - {id};
      }
      if |found| < 1 {
        return Err(InternalServerError);
      }
      assert found[0] in found;
      r := Ok(found);
    }

    /** getFeedPostsFromFollowingByUserId: posts of followed users, in table order. */
    method GetFeedPostsFromFollowingByUserId(userId: UserId) returns (r: Result<seq<PostId>>)
      ensures userId !in users ==> r == Err(InternalServerError)
      ensures userId in users ==>
        (r.Err? <==> forall id :: id in posts ==> posts[id].creator !in users[userId].following)
      ensures r.Err? ==> r.code == InternalServerError
      ensures r.Ok? ==> userId in users && FeedPosts.IsFollowingListing(posts, users[userId].following, r.value)
    {
      if userId !in users {
        return Err(InternalServerError);
      }
      var following := users[userId].following;
      var pending := posts.Keys;
      var found: seq<PostId> := [];
      while pending != {}
        invariant pending <= posts.Keys
        invariant NoDup(found)
        invariant forall id :: id in found <==> id in posts && id !in pending && posts[id].creator in following
        decreases pending
      {
        var id :| id in pending;
        if posts[id].creator in following {
          found := found + [id];
        }
        pending := pending - {id};
      }
      if |found| < 1 {
        return Err(InternalServerError);
      }
      assert found[0] in found;
      r := Ok(found);
    }

    method AddFeedPostByUserId(actor: UserId, userId: UserId, content: string, now: nat) returns (r: Result<PostId>)
      requires Valid()
      modifies this
      ensures Valid()
      ensures Outcome(r, State()) == FeedPosts.Add(old(State()), actor, userId, content, now)
    {
      FeedPosts.AddKeepsConsistent(State(), actor, userId, content, now);
      if content == "" {
        return Err(UnprocessableEntity);
      }
      if userId !in users {
        return Err(NotFound);
      }
      if actor != userId {
        return Err(Unauthorized);
      }
      var id := nextId;
      nextId := nextId + 1;
      posts := posts[id := FeedPost(content, userId, now)];
      var user := users[userId];
      users := users[userId := user.(feedPosts := user.feedPosts + [id])];
      r := Ok(id);
    }

    method DeleteFeedPostByPostId(actor: UserId, postId: PostId) returns (r: Result<FeedPost>)
      requires Valid()
      modifies this
      ensures Valid()
      ensures Outcome(r, State()) == FeedPosts.Delete(old(State()), actor, postId)
    {
      FeedPosts.DeleteKeepsConsistent(State(), actor, postId);
      if postId !in posts {
        return Err(InternalServerError);
      }
      var feedPost := posts[postId];
      if feedPost.creator != actor {
        return Err(Unauthorized);
      }
      posts := posts - {postId};
      var creator := users[feedPost.creator];
      users := users[feedPost.creator := creator.(feedPosts := Pull(creator.feedPosts, postId))];
      r := Ok(feedPost);
    }

    /** getGuestBookMessagesByUserId: scans the message table and keeps the listing newest first. */
    method GetGuestBookMessagesByUserId(receiverId: UserId) returns (r: Result<seq<MessageId>>)
      ensures r.Err? <==> forall id :: id in messages ==> messages[id].receiver != receiverId
      ensures r.Err? ==> r.code == InternalServerError
      ensures r.Ok? ==> GuestBook.IsReceiverListing(messages, receiverId, r.value)
    {
      var created := GuestBook.CreatedOf(messages);
      var pending := messages.Keys;
      var found: seq<MessageId> := [];
      while pending != {}
        invariant pending <= messages.Keys
        invariant NoDup(found) && NewestFirst(found, created)
        invariant forall id :: id in found <==> id in messages && id !in pending && messages[id].receiver == receiverId
        decreases pending
      {
        var id :| id in pending;
        if messages[id].receiver == receiverId {
          found := Insert(found, id, created);
        }
        pending := pending - {id};
      }
      if |found| < 1 {
        return Err(InternalServerError);
      }
      assert found[0] in found;
      r := Ok(found);
    }

    method AddGuestBookMessageByUserId(actor: UserId, receiverId: UserId, senderId: UserId, content: string,
                                      answerTo: Option<MessageId>, now: nat) returns (r: Result<MessageId>)
      requires Valid()
      modifies this
      ensures Valid()
      ensures Outcome(r, State()) == GuestBook.Send(old(State()), actor, receiverId, senderId, content, answerTo, now)
    {
      GuestBook.SendKeepsConsistent(State(), actor, receiverId, senderId, content, answerTo, now);
      if senderId !in users {
        return Err(InternalServerError);
      }
      if actor != senderId {
        return Err(Unauthorized);
      }
      if content == "" {
        return Err(InternalServerError);
      }
      var id := nextId;
      nextId := nextId + 1;
      messages := messages[id := GuestBookMessage(senderId, receiverId, content, now, answerTo)];
      r := Ok(id);
    }

    method DeleteGuestBookMessageById(actor: UserId, messageId: MessageId) returns (r: Result<GuestBookMessage>)
      requires Valid()
      modifies this
      ensures Valid()
      ensures Outcome(r, State()) == GuestBook.Delete(old(State()), actor, messageId)
    {
      GuestBook.DeleteKeepsConsistent(State(), actor, messageId);
      if messageId !in messages {
        return Err(InternalServerError);
      }
      var guestBookMessage := messages[messageId];
      if actor != guestBookMessage.sender && actor != guestBookMessage.receiver {
        return Err(Unauthorized);
      }
      messages := messages - {messageId};
      r := Ok(guestBookMessage);
    }
  }
}
