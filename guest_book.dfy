/** The rules of controllers/guestBookMessages-controllers.js: a message table
    with a sender-or-receiver deletion right. */
module GuestBook {
  import opened Http
  import opened Lists
  import opened Order
  import opened Documents

  /** The `created` time of every message, keyed by message id. */
  function CreatedOf(messages: map<MessageId, GuestBookMessage>): (created: map<MessageId, nat>) {
    map id | id in messages :: messages[id].created
  }

  /** `ids` is an answer of getGuestBookMessagesByUserId: every message to `receiverId` once, newest first. */
  ghost predicate IsReceiverListing(messages: map<MessageId, GuestBookMessage>, receiverId: UserId, ids: seq<MessageId>) {
    && NoDup(ids)
    && (forall id :: id in ids <==> id in messages && messages[id].receiver == receiverId)
    && NewestFirst(ids, CreatedOf(messages))
  }

  /** addGuestBookMessageByUserId. Only the sender is looked up; the receiver and
      `answerTo` are stored unchecked, and no user document changes. The save
      refuses empty content, as the schema requires it. */
  function Send(db: Database, actor: UserId, receiverId: UserId, senderId: UserId, content: string,
                answerTo: Option<MessageId>, now: nat): (o: Outcome<MessageId>)
    ensures o.result.Ok? <==> senderId in db.users && actor == senderId && content != ""
    ensures senderId !in db.users ==> o.result == Err(InternalServerError)
    ensures senderId in db.users && actor != senderId ==> o.result == Err(Unauthorized)
    ensures senderId in db.users && actor == senderId && content == "" ==> o.result == Err(InternalServerError)
    ensures o.result.Err? ==> o.after == db
    ensures o.result.Ok? ==>
      var id := o.result.value;
      && o.after.messages == db.messages[id := GuestBookMessage(senderId, receiverId, content, now, answerTo)]
      && o.after.users == db.users
      && o.after.posts == db.posts
      && o.after.nextId == id + 1
    ensures Consistent(db) && o.result.Ok? ==> o.result.value !in db.messages
  {
    if senderId !in db.users then Outcome(Err(InternalServerError), db)
    else if actor != senderId then Outcome(Err(Unauthorized), db)
    else if content == "" then Outcome(Err(InternalServerError), db)
    else
      var id := db.nextId;
      Outcome(Ok(id), db.(messages := db.messages[id := GuestBookMessage(senderId, receiverId, content, now, answerTo)],
                          nextId := id + 1))
  }

  /** deleteGuestBookMessageById: the sender or the receiver may delete; replies are left alone. */
  function Delete(db: Database, actor: UserId, messageId: MessageId): (o: Outcome<GuestBookMessage>)
    ensures o.result.Ok? <==>
      messageId in db.messages && (actor == db.messages[messageId].sender || actor == db.messages[messageId].receiver)
    ensures messageId !in db.messages ==> o.result == Err(InternalServerError)
    ensures messageId in db.messages && actor != db.messages[messageId].sender && actor != db.messages[messageId].receiver ==>
      o.result == Err(Unauthorized)
    ensures o.result.Err? ==> o.after == db
    ensures o.result.Ok? ==>
      && o.result.value == db.messages[messageId]
      && o.after == db.(messages := db.messages - {messageId})
  {
    if messageId !in db.messages then Outcome(Err(InternalServerError), db)
    else
      var message := db.messages[messageId];
      if actor != message.sender && actor != message.receiver then Outcome(Err(Unauthorized), db)
      else Outcome(Ok(message), db.(messages := db.messages - {messageId}))
  }

  lemma SendKeepsConsistent(db: Database, actor: UserId, receiverId: UserId, senderId: UserId, content: string,
                            answerTo: Option<MessageId>, now: nat)
    requires Consistent(db)
    ensures Consistent(Send(db, actor, receiverId, senderId, content, answerTo, now).after)
  {
  }

  lemma DeleteKeepsConsistent(db: Database, actor: UserId, messageId: MessageId)
    requires Consistent(db)
    ensures Consistent(Delete(db, actor, messageId).after)
  {
  }

  /** When the clock has moved past every stored message, a message just sent
      heads its receiver's listing. */
  lemma SentMessageListedFirst(db: Database, actor: UserId, receiverId: UserId, senderId: UserId, content: string,
                               answerTo: Option<MessageId>, now: nat, ids: seq<MessageId>)
    requires Consistent(db)
    requires forall m :: m in db.messages ==> db.messages[m].created < now
    requires Send(db, actor, receiverId, senderId, content, answerTo, now).result.Ok?
    requires IsReceiverListing(Send(db, actor, receiverId, senderId, content, answerTo, now).after.messages, receiverId, ids)
    ensures |ids| > 0 && ids[0] == Send(db, actor, receiverId, senderId, content, answerTo, now).result.value
  {
    var sent := Send(db, actor, receiverId, senderId, content, answerTo, now);
    var id := sent.result.value;
    assert id in ids;
    var k :| 0 <= k < |ids| && ids[k] == id;
    if ids[0] != id {
      assert false;
    }
  }

  /** Deleting a message keeps its replies, which then name a message that is gone. */
  lemma DeleteLeavesReplies(db: Database, actor: UserId, messageId: MessageId, reply: MessageId)
    requires reply in db.messages && reply != messageId && db.messages[reply].answerTo == Some(messageId)
    requires Delete(db, actor, messageId).result.Ok?
    ensures var after := Delete(db, actor, messageId).after.messages;
      && reply in after && after[reply] == db.messages[reply]
      && messageId !in after
  {
  }
}
