/** The rules of controllers/users-controllers.js: profile edits and the follow graph. */
module Users {
  import opened Http
  import opened Lists
  import opened Documents

  /** The body of an updateUserInfo request. */
  datatype ProfileEdit = ProfileEdit(
    firstName: string,
    lastName: string,
    birthDate: string,
    gender: string,
    description: string)

  /** The validator chain of the updateUserInfo route. */
  predicate ValidEdit(e: ProfileEdit) {
    && e.firstName != ""
    && e.lastName != ""
    && e.gender != ""
    && e.description != ""
    && |e.birthDate| == 10
  }

  /** `v` is `u` with the five editable fields taken from `e` and every other field kept. */
  predicate EditApplied(u: User, e: ProfileEdit, v: User) {
    && v.firstName == e.firstName
    && v.lastName == e.lastName
    && v.birthDate == e.birthDate
    && v.gender == e.gender
    && v.description == Some(e.description)
    && v.email == u.email
    && v.password == u.password
    && v.image == u.image
    && v.following == u.following
    && v.feedPosts == u.feedPosts
    && v.guestBookMessagesReceived == u.guestBookMessagesReceived
    && v.guestBookMessagesSent == u.guestBookMessagesSent
  }

  /** An upload path with every backslash turned into a forward slash. */
  function ReplaceBackslashes(path: string): (r: string)
    ensures |r| == |path|
    ensures '\\' !in r
    ensures forall i :: 0 <= i < |path| && path[i] != '\\' ==> r[i] == path[i]
    ensures forall i :: 0 <= i < |path| && path[i] == '\\' ==> r[i] == '/'
  {
    if path == [] then []
    else [if path[0] == '\\' then '/' else path[0]] + ReplaceBackslashes(path[1..])
  }

  /** The image reference stored for an upload; no upload clears the image. */
  function StoredImage(upload: Option<string>): (r: Option<string>)
    ensures r.Some? <==> upload.Some?
    ensures r.Some? ==> '\\' !in r.value && |r.value| == |upload.value|
  {
    match upload
    case None => None
    case Some(path) => Some(ReplaceBackslashes(path))
  }

  /** Loads the user a profile edit targets and checks that the acting user owns it. */
  function LoadForEdit(users: map<UserId, User>, actor: UserId, userId: UserId): (r: Result<User>)
    ensures r.Ok? <==> userId in users && actor == userId
    ensures r.Ok? ==> r.value == users[userId]
    ensures userId !in users ==> r == Err(NotFound)
    ensures userId in users && actor != userId ==> r == Err(Unauthorized)
  {
    if userId !in users then Err(NotFound)
    else if actor != userId then Err(Unauthorized)
    else Ok(users[userId])
  }

  /** The same step as written: the missing-user branch builds an error but
      does not return it, so the owner check dereferences a null user. */
  function LoadForEditAsWritten(users: map<UserId, User>, actor: UserId, userId: UserId): (r: Reply<User>)
    ensures r.Crashed? <==> userId !in users
    ensures userId in users ==> r == Sent(LoadForEdit(users, actor, userId))
  {
    if userId !in users then Crashed
    else if actor != userId then Sent(Err(Unauthorized))
    else Sent(Ok(users[userId]))
  }

  /** updateUserImage. */
  function UpdateImage(db: Database, actor: UserId, userId: UserId, upload: Option<string>): (o: Outcome<Profile>)
    ensures o.result.Ok? <==> userId in db.users && actor == userId
    ensures userId !in db.users ==> o.result == Err(NotFound)
    ensures userId in db.users && actor != userId ==> o.result == Err(Unauthorized)
    ensures o.result.Err? ==> o.after == db
    ensures o.result.Ok? ==>
      && o.after == db.(users := db.users[userId := db.users[userId].(image := StoredImage(upload))])
      && o.result.value == ProfileOf(userId, o.after.users[userId])
  {
    match LoadForEdit(db.users, actor, userId)
    case Err(code) => Outcome(Err(code), db)
    case Ok(user) =>
      var edited := user.(image := StoredImage(upload));
      Outcome(Ok(ProfileOf(userId, edited)), db.(users := db.users[userId := edited]))
  }

  /** updateUserInfo: the request is validated before the user is loaded. */
  function UpdateInfo(db: Database, actor: UserId, userId: UserId, edit: ProfileEdit): (o: Outcome<Profile>)
    ensures o.result.Ok? <==> ValidEdit(edit) && userId in db.users && actor == userId
    ensures !ValidEdit(edit) ==> o.result == Err(UnprocessableEntity)
    ensures ValidEdit(edit) && userId !in db.users ==> o.result == Err(NotFound)
    ensures ValidEdit(edit) && userId in db.users && actor != userId ==> o.result == Err(Unauthorized)
    ensures o.result.Err? ==> o.after == db
    ensures o.result.Ok? ==>
      && userId in o.after.users
      && o.after == db.(users := db.users[userId := o.after.users[userId]])
      && EditApplied(db.users[userId], edit, o.after.users[userId])
      && o.result.value == ProfileOf(userId, o.after.users[userId])
  {
    if !ValidEdit(edit) then Outcome(Err(UnprocessableEntity), db)
    else
      match LoadForEdit(db.users, actor, userId)
      case Err(code) => Outcome(Err(code), db)
      case Ok(user) =>
        var edited := user.(firstName := edit.firstName, lastName := edit.lastName,
                            birthDate := edit.birthDate, gender := edit.gender,
                            description := Some(edit.description));
        Outcome(Ok(ProfileOf(userId, edited)), db.(users := db.users[userId := edited]))
  }

  /** followUserById: `actor` is the user named by the request's token. */
  function Follow(db: Database, actor: UserId, target: UserId): (o: Outcome<Summary>)
    ensures o.result.Ok? <==>
      target in db.users && actor in db.users && target !in db.users[actor].following
    ensures target !in db.users || actor !in db.users ==> o.result == Err(NotFound)
    ensures target in db.users && actor in db.users && target in db.users[actor].following ==>
      o.result == Err(Unauthorized)
    ensures o.result.Err? ==> o.after == db
    ensures o.result.Ok? ==>
      && o.result.value == SummaryOf(target, db.users[target])
      && o.after == db.(users := db.users[actor := db.users[actor].(following := db.users[actor].following + [target])])
  {
    if target !in db.users || actor !in db.users then Outcome(Err(NotFound), db)
    else
      var authUser := db.users[actor];
      if target in authUser.following then Outcome(Err(Unauthorized), db)
      else
        Outcome(Ok(SummaryOf(target, db.users[target])),
                db.(users := db.users[actor := authUser.(following := authUser.following + [target])]))
  }

  /** followUserById as written: a missing followed user is not rejected, so
      the id is pushed and saved before the response dereferences the null user;
      a missing acting user makes the owner check dereference null. */
  function FollowAsWritten(db: Database, actor: UserId, target: UserId): (r: (Reply<Summary>, Database))
    ensures actor !in db.users ==> r == (Crashed, db)
    ensures target in db.users && actor in db.users ==>
      r == (Sent(Follow(db, actor, target).result), Follow(db, actor, target).after)
    ensures target !in db.users && actor in db.users && target in db.users[actor].following ==>
      r == (Sent(Err(Unauthorized)), db)
    ensures target !in db.users && actor in db.users && target !in db.users[actor].following ==>
      r == (Crashed, db.(users := db.users[actor := db.users[actor].(following := db.users[actor].following + [target])]))
  {
    if actor !in db.users then (Crashed, db)
    else
      var authUser := db.users[actor];
      if target in authUser.following then (Sent(Err(Unauthorized)), db)
      else
        var after := db.(users := db.users[actor := authUser.(following := authUser.following + [target])]);
        if target !in db.users then (Crashed, after)
        else (Sent(Ok(SummaryOf(target, db.users[target]))), after)
  }

  /** unfollowUserById: not following the target is a success that changes nothing. */
  function Unfollow(db: Database, actor: UserId, target: UserId): (o: Outcome<Summary>)
    ensures o.result.Ok? <==> target in db.users && actor in db.users
    ensures o.result.Err? ==> o.result.code == NotFound && o.after == db
    ensures o.result.Ok? ==>
      && o.result.value == SummaryOf(target, db.users[target])
      && o.after == db.(users := db.users[actor := db.users[actor].(following := Pull(db.users[actor].following, target))])
      && target !in o.after.users[actor].following
    ensures o.result.Ok? && target !in db.users[actor].following ==> o.after == db
  {
    if target !in db.users || actor !in db.users then Outcome(Err(NotFound), db)
    else
      var authUser := db.users[actor];
      var summary := SummaryOf(target, db.users[target]);
      if target in authUser.following then
        Outcome(Ok(summary), db.(users := db.users[actor := authUser.(following := Pull(authUser.following, target))]))
      else
        Outcome(Ok(summary), db)
  }

  /** unfollowUserById as written: neither missing-user branch returns, so a
      missing acting user crashes at the owner check and a missing target crashes
      when the response is built, after any pull has been saved. */
  function UnfollowAsWritten(db: Database, actor: UserId, target: UserId): (r: (Reply<Summary>, Database))
    ensures r.0.Crashed? <==> target !in db.users || actor !in db.users
    ensures actor !in db.users ==> r == (Crashed, db)
    ensures actor in db.users && target !in db.users ==>
      r.1 == (if target in db.users[actor].following
              then db.(users := db.users[actor := db.users[actor].(following := Pull(db.users[actor].following, target))])
              else db)
    ensures target in db.users && actor in db.users ==>
      r == (Sent(Unfollow(db, actor, target).result), Unfollow(db, actor, target).after)
  {
    if actor !in db.users then (Crashed, db)
    else
      var authUser := db.users[actor];
      var after :=
        if target in authUser.following
        then db.(users := db.users[actor := authUser.(following := Pull(authUser.following, target))])
        else db;
      if target !in db.users then (Crashed, after)
      else (Sent(Ok(SummaryOf(target, db.users[target]))), after)
  }

  lemma FollowKeepsConsistent(db: Database, actor: UserId, target: UserId)
    requires Consistent(db)
    ensures Consistent(Follow(db, actor, target).after)
  {
  }

  /** As written, following a missing user leaves a dangling id in `following`. */
  lemma FollowAsWrittenBreaksClosure(db: Database, actor: UserId, target: UserId)
    requires Consistent(db) && actor in db.users && target !in db.users
    ensures FollowAsWritten(db, actor, target).0.Crashed?
    ensures !FollowGraphClosed(FollowAsWritten(db, actor, target).1.users)
    ensures Follow(db, actor, target).result == Err(NotFound)
  {
    var after := FollowAsWritten(db, actor, target).1;
    assert target !in db.users[actor].following;
    var f := after.users[actor].following;
    assert f[|f| - 1] == target;
    assert actor in after.users && target in after.users[actor].following && target !in after.users;
  }

  /** A second follow of the same user is refused and changes nothing. */
  lemma FollowTwiceRefused(db: Database, actor: UserId, target: UserId)
    requires Follow(db, actor, target).result.Ok?
    ensures var again := Follow(Follow(db, actor, target).after, actor, target);
      again.result == Err(Unauthorized) && again.after == Follow(db, actor, target).after
  {
  }

  lemma UnfollowKeepsConsistent(db: Database, actor: UserId, target: UserId)
    requires Consistent(db)
    ensures Consistent(Unfollow(db, actor, target).after)
  {
  }

  /** Repeating an unfollow answers the same and changes nothing more. */
  lemma UnfollowIdempotent(db: Database, actor: UserId, target: UserId)
    ensures var once := Unfollow(db, actor, target);
      Unfollow(once.after, actor, target) == once
  {
  }

  /** After an unfollow the remaining followed users keep their order. */
  lemma UnfollowKeepsOrder(db: Database, actor: UserId, k: nat)
    requires actor in db.users && NoDup(db.users[actor].following)
    requires k < |db.users[actor].following|
    ensures var f := db.users[actor].following;
      Unfollow(db, actor, f[k]).result.Ok? ==>
        Unfollow(db, actor, f[k]).after.users[actor].following == f[..k] + f[k + 1..]
  {
    PullAt(db.users[actor].following, k);
  }

  /** As written, a missing target or acting user is never answered with 404. */
  lemma UnfollowAsWrittenCrashes(db: Database, actor: UserId, target: UserId)
    requires Consistent(db) && (target !in db.users || actor !in db.users)
    ensures UnfollowAsWritten(db, actor, target) == (Crashed, db)
    ensures Unfollow(db, actor, target) == Outcome(Err(NotFound), db)
  {
  }

  lemma UpdateImageKeepsConsistent(db: Database, actor: UserId, userId: UserId, upload: Option<string>)
    requires Consistent(db)
    ensures Consistent(UpdateImage(db, actor, userId, upload).after)
  {
    SameLinksConsistent(db, UpdateImage(db, actor, userId, upload).after);
  }

  lemma UpdateInfoKeepsConsistent(db: Database, actor: UserId, userId: UserId, edit: ProfileEdit)
    requires Consistent(db)
    ensures Consistent(UpdateInfo(db, actor, userId, edit).after)
  {
    SameLinksConsistent(db, UpdateInfo(db, actor, userId, edit).after);
  }
}
