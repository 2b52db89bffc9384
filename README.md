# Social backend: ownership and consistency rules

This project models the request handlers of a social-network REST backend.
The backend has three controllers:

- users: profile listing and edits, and a directed follow graph stored on the follower;
- feed posts: a post table kept in step with each creator's `feedPosts` id list;
- guest book: messages between users, which the sender or the receiver may delete.

The document database is modelled as three in-memory maps from opaque ids to
records, shaped as the mongoose schemas. The maps are `users`, `posts` and
`messages`, and a counter `nextId` hands out fresh ids to new posts and messages.
Each exported handler is a method on the class `Backend.Store`. It takes the
acting user id (the id in the request's verified token) and returns `Ok(value)`
or `Err(code)` with the handler's HTTP status code.

Each state-changing method is proved equal to a pure function over a
`Database` value:

- `Users.UpdateImage`, `Users.UpdateInfo`, `Users.Follow`, `Users.Unfollow`;
- `FeedPosts.Add`, `FeedPosts.Delete`;
- `GuestBook.Send`, `GuestBook.Delete`.

Those functions state the error cases, the exact new state and what stays
untouched. Every method also keeps the store invariant `Documents.Consistent`:

- every followed id names a user;
- nobody follows the same user twice;
- a user's `feedPosts` lists exactly that user's posts, each once;
- every post and message has an id below `nextId`, and its creator or sender exists.

The read handlers are methods that change nothing. A listing is a scan of the
table that inserts each match into a newest-first sequence (`Order.Insert`).
The following-feed adds no sort, because the source has none. Timestamps are a
`nat` clock passed in by the caller.

Files: `http.dfy` (status codes, results), `lists.dfy` (array `pull`),
`order.dfy` (newest-first order), `documents.dfy` (records, store, invariant),
`users.dfy`, `feed_posts.dfy`, `guest_book.dfy` (one module per controller),
`store.dfy` (the handlers).

The model follows the code in these ways:

- A missing user in getUsers/getUserById, a missing post or message, and an
  unknown sender all answer 500, as the code does, not 404.
- The follow edge is refused with 401, not a distinct "already following" kind.
- The guest-book send checks neither that the receiver exists nor what
  `answerTo` names.

## Model

| member | source | states |
|---|---|---|
| Backend.Store.GetUsers | controllers/users-controllers.js:8-27 | no users is an error with 500; otherwise every user is returned without the password, keyed by id |
| Backend.Store.GetUserById | controllers/users-controllers.js:30-54 | a missing user is an error with 500; otherwise the user's profile without the password |
| Documents.ProfileOf | controllers/users-controllers.js:12 | a user as answered with the `-password` projection: every schema field but the password, with the id |
| Documents.ProfileHidesOnlyPassword | controllers/users-controllers.js:12 | two users of one id give the same profile exactly when they differ at most in the password |
| Documents.SummaryOf | controllers/users-controllers.js:178-181 | a user as read with the `firstName lastName image` projection, with the id |
| Documents.SummaryShowsNamesAndImage | controllers/users-controllers.js:254-257 | two users of one id give the same summary exactly when their first names, last names and images agree |
| Users.ValidEdit | routes/users-routes.js:42-48 | the route's validator chain: first name, last name, gender and description non-empty and a birthDate of exactly 10 characters; Users.UpdateInfo answers 422 exactly when it fails |
| Users.ReplaceBackslashes | controllers/users-controllers.js:90-92 | the stored path has the upload path's length, no backslash, a '/' wherever the upload had a backslash and the same character everywhere else |
| Users.StoredImage | controllers/users-controllers.js:88-94 | an upload yields a backslash-free path of the same length; no upload yields no image |
| Users.LoadForEdit | controllers/users-controllers.js:137-148 | succeeds iff the user exists and is the actor, returning that user; missing is 404, another actor is 401 |
| Users.LoadForEditAsWritten | controllers/users-controllers.js:75-86 | as written a missing user crashes (null dereference) instead of answering; otherwise it agrees with LoadForEdit |
| Users.UpdateImage | controllers/users-controllers.js:57-107 | only the owner may change the image (404 missing, 401 other actor, store unchanged); on success only that user's image changes, to the normalised upload path or none |
| Users.UpdateInfo | controllers/users-controllers.js:110-167 | invalid fields give 422 before any lookup; then 404/401 as for the image; on success exactly firstName, lastName, birthDate, gender and description are replaced and every other field and user is untouched |
| Users.Follow | controllers/users-controllers.js:171-242 | succeeds iff both users exist and the target is not yet followed; missing users give 404, an existing edge 401, and errors change nothing; success appends exactly the target id to the actor's following and changes nothing else |
| Users.FollowAsWritten | controllers/users-controllers.js:191-241 | as written a missing actor crashes with the store unchanged; a missing target already followed is answered 401 with the store unchanged; a missing target not yet followed is pushed and saved, and the handler then crashes with exactly that store; with both users present it agrees with Follow |
| Users.FollowKeepsConsistent | controllers/users-controllers.js:224-232 | a follow keeps the store invariant, in particular no duplicate in following and no dangling followed id |
| Users.FollowAsWrittenBreaksClosure | controllers/users-controllers.js:191-232 | as written, following a missing user from a consistent store crashes and leaves a dangling id in following, where Follow answers 404 |
| Users.FollowTwiceRefused | controllers/users-controllers.js:224-228 | repeating a successful follow fails with 401 and leaves the store as the first follow left it |
| Users.Unfollow | controllers/users-controllers.js:246-315 | succeeds iff both users exist (else 404, unchanged); on success the target is absent from following and only the actor's following changes, by a pull; not following the target leaves the store unchanged |
| Users.UnfollowAsWritten | controllers/users-controllers.js:266-314 | as written it crashes exactly when the actor or the target is missing; a missing actor leaves the store unchanged; a missing target crashes after the target has been pulled from the actor's following and saved (unchanged store if it was not followed); with both users present it agrees with Unfollow |
| Users.UnfollowAsWrittenCrashes | controllers/users-controllers.js:266-291 | in a consistent store a missing target or actor crashes as written with nothing changed, where Unfollow answers 404 |
| Users.UnfollowKeepsConsistent | controllers/users-controllers.js:299-312 | an unfollow keeps the store invariant |
| Users.UnfollowIdempotent | controllers/users-controllers.js:299-314 | a second identical unfollow gives the same answer and changes nothing |
| Users.UnfollowKeepsOrder | controllers/users-controllers.js:300-301 | unfollowing the k-th followed user removes exactly that position; the others keep their relative order |
| Users.UpdateImageKeepsConsistent | controllers/users-controllers.js:88-97 | an image update keeps the store invariant |
| Users.UpdateInfoKeepsConsistent | controllers/users-controllers.js:150-157 | a profile edit keeps the store invariant |
| Backend.Store.UpdateUserImage | controllers/users-controllers.js:57-107 | answer and new store are those of Users.UpdateImage; the invariant is kept |
| Backend.Store.UpdateUserInfo | controllers/users-controllers.js:110-167 | answer and new store are those of Users.UpdateInfo; the invariant is kept |
| Backend.Store.FollowUserById | controllers/users-controllers.js:171-242 | answer and new store are those of Users.Follow; the invariant is kept |
| Backend.Store.UnfollowUserById | controllers/users-controllers.js:246-315 | answer and new store are those of Users.Unfollow; the invariant is kept |
| Lists.Pull | controllers/feedPosts-controllers.js:263 | the result holds exactly the elements other than x, is no longer than the input, is the input when x is absent, and keeps distinctness |
| Lists.PullAt | controllers/users-controllers.js:300-301 | pulling an element that occurs once removes just its position |
| Lists.PullPushed | controllers/feedPosts-controllers.js:147 | pulling an id that was just pushed onto a list that lacked it restores the list |
| Order.Insert | controllers/feedPosts-controllers.js:13-17 | inserting into a newest-first listing keeps it newest first, adds exactly the id and keeps distinctness |
| Backend.Store.GetFeedPostsByUserId | controllers/feedPosts-controllers.js:9-36 | the answer lists exactly the posts whose creator is the user, each once, newest first; no such post is an error with 500 |
| Backend.Store.GetFeedPostsFromFollowingByUserId | controllers/feedPosts-controllers.js:39-91 | a missing user is 500; otherwise the answer lists exactly the posts whose creator the user follows, each once; none is 500 |
| FeedPosts.Add | controllers/feedPosts-controllers.js:94-170 | empty content is 422, a missing user 404, another actor 401, each with nothing changed; success inserts one post with the user as creator under a fresh id and appends that id to the user's feedPosts in the same step |
| FeedPosts.Delete | controllers/feedPosts-controllers.js:222-276 | a missing post is 500, another actor than the creator 401, each with nothing changed; success removes the post and pulls its id from the creator's feedPosts, leaving other users, posts and messages untouched |
| FeedPosts.AddKeepsConsistent | controllers/feedPosts-controllers.js:141-150 | creating a post keeps "every post's id is in its creator's feedPosts" and the rest of the invariant |
| FeedPosts.DeleteKeepsConsistent | controllers/feedPosts-controllers.js:256-266 | deleting a post keeps the invariant |
| FeedPosts.AddThenDelete | controllers/feedPosts-controllers.js:141-150 | creating a post and deleting it as its creator returns the post and restores every table; only the id counter has advanced |
| FeedPosts.AddedPostIsListed | controllers/feedPosts-controllers.js:135-139 | a created post appears in its creator's listing with the given content, creator and time |
| FeedPosts.ListingIsFeedPosts | controllers/feedPosts-controllers.js:13-17 | in a consistent store a user's listing holds exactly the ids in that user's feedPosts |
| Backend.Store.AddFeedPostByUserId | controllers/feedPosts-controllers.js:94-170 | answer and new store are those of FeedPosts.Add; the invariant is kept |
| Backend.Store.DeleteFeedPostByPostId | controllers/feedPosts-controllers.js:222-276 | answer and new store are those of FeedPosts.Delete; the invariant is kept |
| Backend.Store.GetGuestBookMessagesByUserId | controllers/guestBookMessages-controllers.js:9-37 | the answer lists exactly the messages to the receiver, each once, newest first; none is an error with 500 |
| GuestBook.Send | controllers/guestBookMessages-controllers.js:40-113 | a missing sender is 500, another actor 401, and empty content is 500, each with nothing changed; success adds exactly one message under a fresh id with the given sender, receiver, content, time and answerTo, and no user or post changes |
| GuestBook.Delete | controllers/guestBookMessages-controllers.js:116-164 | succeeds iff the message exists and the actor is its sender or receiver; missing is 500, anyone else 401, with nothing changed; success removes only that message |
| GuestBook.SendKeepsConsistent | controllers/guestBookMessages-controllers.js:84-93 | sending keeps the invariant |
| GuestBook.DeleteKeepsConsistent | controllers/guestBookMessages-controllers.js:153-154 | deleting a message keeps the invariant |
| GuestBook.SentMessageListedFirst | controllers/guestBookMessages-controllers.js:13-18 | with a clock past every stored message, a message just sent heads its receiver's listing |
| GuestBook.DeleteLeavesReplies | controllers/guestBookMessages-controllers.js:153-154 | replies to a deleted message remain, unchanged, naming a message that no longer exists |
| Backend.Store.AddGuestBookMessageByUserId | controllers/guestBookMessages-controllers.js:40-113 | answer and new store are those of GuestBook.Send; the invariant is kept |
| Backend.Store.DeleteGuestBookMessageById | controllers/guestBookMessages-controllers.js:116-164 | answer and new store are those of GuestBook.Delete; the invariant is kept |

## Left out

- Store failures: every `catch` that maps a failed query, save or transaction to 500 is left out. The model's store never fails, so partial failure, rollback and retry do not arise. Each create and delete is one atomic step.
- The transactions themselves (session start, commit) are not modelled; the two writes happen in one method.
- Response shaping: `populate` joins, the `toObject` getters and the human-readable messages are left out. Only status codes and the returned records or ids remain. Listings return ids in order, not joined documents.
- Ordering among posts or messages created at the same instant: the database picks some order; the model proves only that creation times never increase along a listing.
- The owner check at controllers/users-controllers.js:216 and :291 compares the loaded user with the id it was loaded by, so it always passes and is not modelled.
- Ids are naturals and compared by value; ObjectId/string conversion is not modelled.
- Users.UpdateInfo: birthDate is kept as the submitted string and the Date cast on save is not modelled. A 10-character birthDate that does not cast to a date, such as "abcdefghij", makes the save at controllers/users-controllers.js:157 fail and the handler answer 500 (:158-164); the model answers Ok and stores the string.
- The guest-book save at controllers/guestBookMessages-controllers.js:93 is not awaited. The model treats it as a synchronous insert that the schema's required-content rule can refuse with 500. As written, the client is answered with success even when that save later fails.
- The validation check at controllers/guestBookMessages-controllers.js:41-47 never fails, because the route's validators are commented out; it is not modelled.
- Sign-up, login, token checking and file upload live in code that is not part of this model. The store is built from an already consistent set of documents, and an upload is given as its stored path.
- The commented-out deleteUserById and updateFeedPostByPostId are dead code and are not modelled.
- FeedPosts.Delete: requires that the post's creator exists. Otherwise the populated creator is null and the handler crashes. `Documents.Consistent` guarantees the creator exists.
- GuestBook.SentMessageListedFirst: assumes a clock strictly past every stored message. With equal timestamps the database may put another message first.

## Findings

| source | as written | input that shows it | evidently intended | confidence | as-written member | corrected member |
|---|---|---|---|---|---|---|
| controllers/users-controllers.js:191-196 | the missing-target branch builds a 404 error but does not return it; the id is pushed onto following and saved, then the response dereferences null at :241 | an existing actor follows an id that names no user | answer 404 and change nothing | high, from reading the code; not executed | Users.FollowAsWritten, Users.FollowAsWrittenBreaksClosure | Users.Follow, Users.FollowKeepsConsistent |
| controllers/users-controllers.js:75-80 | the missing-user branch (also :137-142) builds a 404 error but does not return it; the owner check at :83 (:145) dereferences null | updateUserImage or updateUserInfo for an id that names no user | answer 404 | high, from reading the code; not executed | Users.LoadForEditAsWritten | Users.LoadForEdit |
| controllers/users-controllers.js:266-271 | the missing-target branch of unfollow (and the missing-actor branches at :211-213 and :286-288) builds a 404 error but does not return it; the handler dereferences null at :314 (or :216 and :291) | an existing actor unfollows an id that names no user | answer 404 and change nothing | high, from reading the code; not executed | Users.UnfollowAsWritten, Users.UnfollowAsWrittenCrashes | Users.Unfollow, Users.UnfollowKeepsConsistent |
