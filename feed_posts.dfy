/** The rules of controllers/feedPosts-controllers.js: a post table kept in step
    with each creator's `feedPosts` list. */
module FeedPosts {
  import opened Http
  import opened Lists
  import opened Order
  import opened Documents

  /** The `created` time of every post, keyed by post id. */
  function CreatedOf(posts: map<PostId, FeedPost>): (created: map<PostId, nat>) {
    map id | id in posts :: posts[id].created
  }

  /** `ids` is an answer of getFeedPostsByUserId: every post of `userId` once, newest first. */
  ghost predicate IsUserListing(posts: map<PostId, FeedPost>, userId: UserId, ids: seq<PostId>) {
    && NoDup(ids)
    && (forall id :: id in ids <==> id in posts && posts[id].creator == userId)
    && NewestFirst(ids, CreatedOf(posts))
  }

  /** `ids` is an answer of getFeedPostsFromFollowingByUserId: every post whose
      creator is followed, once, in no particular order. */
  ghost predicate IsFollowingListing(posts: map<PostId, FeedPost>, following: seq<UserId>, ids: seq<PostId>) {
    && NoDup(ids)
    && (forall id :: id in ids <==> id in posts && posts[id].creator in following)
  }

  /** addFeedPostByUserId: the post and the push onto the creator's list happen in one step. */
  function Add(db: Database, actor: UserId, userId: UserId, content: string, now: nat): (o: Outcome<PostId>)
    ensures o.result.Ok? <==> content != "" && userId in db.users && actor == userId
    ensures content == "" ==> o.result == Err(UnprocessableEntity)
    ensures content != "" && userId !in db.users ==> o.result == Err(NotFound)
    ensures content != "" && userId in db.users && actor != userId ==> o.result == Err(Unauthorized)
    ensures o.result.Err? ==> o.after == db
    ensures o.result.Ok? ==>
      var id := o.result.value;
      var user := db.users[userId];
      && o.after.posts == db.posts[id := FeedPost(content, userId, now)]
      && o.after.users == db.users[userId := user.(feedPosts := user.feedPosts + [id])]
      && o.after.messages == db.messages
      && o.after.nextId == id + 1
    ensures Consistent(db) && o.result.Ok? ==> o.result.value !in db.posts
  {
    if content == "" then Outcome(Err(UnprocessableEntity), db)
    else if userId !in db.users then Outcome(Err(NotFound), db)
    else if actor != userId then Outcome(Err(Unauthorized), db)
    else
      var id := db.nextId;
      var user := db.users[userId];
      Outcome(Ok(id), db.(posts := db.posts[id := FeedPost(content, userId, now)],
                          users := db.users[userId := user.(feedPosts := user.feedPosts + [id])],
                          nextId := id + 1))
  }

  /** deleteFeedPostByPostId: only the creator may delete; the post and its id
      in the creator's list go in one step. The creator is loaded with the post. */
  function Delete(db: Database, actor: UserId, postId: PostId): (o: Outcome<FeedPost>)
    requires postId in db.posts ==> db.posts[postId].creator in db.users
    ensures o.result.Ok? <==> postId in db.posts && actor == db.posts[postId].creator
    ensures postId !in db.posts ==> o.result == Err(InternalServerError)
    ensures postId in db.posts && actor != db.posts[postId].creator ==> o.result == Err(Unauthorized)
    ensures o.result.Err? ==> o.after == db
    ensures o.result.Ok? ==>
      var creator := db.posts[postId].creator;
      var user := db.users[creator];
      && o.result.value == db.posts[postId]
      && o.after == db.(posts := db.posts - {postId},
                        users := db.users[creator := user.(feedPosts := Pull(user.feedPosts, postId))])
      && postId !in o.after.posts && postId !in o.after.users[creator].feedPosts
  {
    if postId !in db.posts then Outcome(Err(InternalServerError), db)
    else
      var post := db.posts[postId];
      if actor != post.creator then Outcome(Err(Unauthorized), db)
      else Outcome(Ok(post), RemovePost(db, postId))
  }

  /** The two writes of a post deletion: the post goes, and so does its id in the creator's list. */
  function RemovePost(db: Database, postId: PostId): (after: Database)
    requires postId in db.posts && db.posts[postId].creator in db.users
  {
    var creator := db.posts[postId].creator;
    var user := db.users[creator];
    db.(posts := db.posts - {postId},
        users := db.users[creator := user.(feedPosts := Pull(user.feedPosts, postId))])
  }

  lemma AddKeepsConsistent(db: Database, actor: UserId, userId: UserId, content: string, now: nat)
    requires Consistent(db)
    ensures Consistent(Add(db, actor, userId, content, now).after)
  {
    var o := Add(db, actor, userId, content, now);
    if o.result.Ok? {
      var id := o.result.value;
      assert id !in db.users[userId].feedPosts;
      NoDupAppend(db.users[userId].feedPosts, id);
    }
  }

  lemma RemovePostKeepsFollowing(db: Database, postId: PostId)
    requires Consistent(db) && postId in db.posts
    ensures FollowGraphClosed(RemovePost(db, postId).users) && FollowingNoDup(RemovePost(db, postId).users)
  {
    var users := RemovePost(db, postId).users;
    assert users.Keys == db.users.Keys;
    assert forall u :: u in users ==> users[u].following == db.users[u].following;
  }

  lemma RemovePostKeepsListed(db: Database, postId: PostId)
    requires postId in db.posts && db.posts[postId].creator in db.users
    requires PostsListed(db)
    ensures PostsListed(RemovePost(db, postId))
  {
    var after := RemovePost(db, postId);
    forall p | p in after.posts
      ensures p < after.nextId && after.posts[p].creator in after.users
      ensures p in after.users[after.posts[p].creator].feedPosts
    {
      assert p != postId && after.posts[p] == db.posts[p];
    }
  }

  lemma RemovePostKeepsGenuine(db: Database, postId: PostId)
    requires postId in db.posts && db.posts[postId].creator in db.users
    requires FeedPostsGenuine(db)
    ensures FeedPostsGenuine(RemovePost(db, postId))
  {
    var after := RemovePost(db, postId);
    forall u, p | u in after.users && p in after.users[u].feedPosts
      ensures p in after.posts && after.posts[p].creator == u
    {
      assert p in db.users[u].feedPosts && p != postId;
    }
  }

  lemma RemovePostKeepsLinks(db: Database, postId: PostId)
    requires postId in db.posts && db.posts[postId].creator in db.users
    requires PostsLinked(db)
    ensures PostsLinked(RemovePost(db, postId))
  {
    RemovePostKeepsListed(db, postId);
    RemovePostKeepsGenuine(db, postId);
  }

  lemma DeleteKeepsConsistent(db: Database, actor: UserId, postId: PostId)
    requires Consistent(db)
    ensures Consistent(Delete(db, actor, postId).after)
  {
    if Delete(db, actor, postId).result.Ok? {
      RemovePostKeepsFollowing(db, postId);
      RemovePostKeepsLinks(db, postId);
    }
  }

  /** Creating a post and then deleting it as its creator gives the post back and
      restores every table; only the id counter has moved on. */
  lemma AddThenDelete(db: Database, userId: UserId, content: string, now: nat)
    requires Consistent(db)
    requires Add(db, userId, userId, content, now).result.Ok?
    ensures var added := Add(db, userId, userId, content, now);
      var deleted := Delete(added.after, userId, added.result.value);
      && deleted.result == Ok(FeedPost(content, userId, now))
      && deleted.after == db.(nextId := db.nextId + 1)
  {
    var added := Add(db, userId, userId, content, now);
    var id := added.result.value;
    var user := db.users[userId];
    assert id !in user.feedPosts;
    PullPushed(user.feedPosts, id);
    var deleted := Delete(added.after, userId, id);
    assert deleted.after.posts == db.posts;
    assert deleted.after.users[userId] == user;
    assert deleted.after.users == db.users;
  }

  /** A post created with some content is listed for its creator with that content. */
  lemma AddedPostIsListed(db: Database, userId: UserId, content: string, now: nat, ids: seq<PostId>)
    requires Add(db, userId, userId, content, now).result.Ok?
    requires IsUserListing(Add(db, userId, userId, content, now).after.posts, userId, ids)
    ensures var added := Add(db, userId, userId, content, now);
      && added.result.value in ids
      && added.after.posts[added.result.value] == FeedPost(content, userId, now)
  {
  }

  /** In a consistent store a user's listing holds exactly the ids of the user's `feedPosts`. */
  lemma ListingIsFeedPosts(db: Database, userId: UserId, ids: seq<PostId>)
    requires Consistent(db) && userId in db.users
    requires IsUserListing(db.posts, userId, ids)
    ensures forall id :: id in ids <==> id in db.users[userId].feedPosts
  {
  }
}
