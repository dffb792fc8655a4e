/** The Telegram bot: the commands that subscribe and unsubscribe a chat, and the messages it sends. */
module TelegramBotting {
  import opened Prelude
  import opened Tables
  import opened Requests
  import opened Storage
  import opened Outreach
  import opened Subscriptions

  const COMMANDS: map<string, BotCommand> := map[
    "/start" := Start,
    "/help" := Help,
    "/send_notifications" := SendNotifications,
    "/stop_notifications" := StopNotifications]

  /** What the bot answers to a command, known being the answer of its existence query. A stale query
      that misses the contact leads to a violated key, and then there is no answer. */
  function Answer(db: Db, chat: ChatId, command: BotCommand, known: bool): Option<Body> {
    match command
    case SendNotifications =>
      if !known && chat in db.contacts then None
      else if !known || (chat in db.contacts && !db.contacts[chat]) then Some(SubscribedText)
      else Some(AlreadySubscribedText)
    case StopNotifications => Some(if ChatActive(db, chat) then UnsubscribedText else NotSubscribedText)
    case _ => Some(HelpText)
  }

  /** What one request to send a message adds to the messages that were accepted. */
  function Accepted(chat: ChatId, body: Body, delivered: bool): seq<Message> {
    if delivered then [Message(chat, body)] else []
  }

  /** Why a command fails, if it does: there is no answer, or the answer is not delivered. */
  function FailureOf(answer: Option<Body>, delivered: bool): Option<Error> {
    if answer.None? then Some(UniqueViolation) else if delivered then None else Some(MessageNotDelivered)
  }

  function Answered(chat: ChatId, answer: Option<Body>, delivered: bool): seq<Message> {
    if answer.Some? then Accepted(chat, answer.value, delivered) else []
  }

  /** The chat gets this answer, unless the request to Telegram fails. */
  predicate Answers(
    before: seq<Message>, after: seq<Message>, chat: ChatId, delivered: bool, failure: Option<Error>, body: Body)
  {
    if delivered then after == before + [Message(chat, body)] && failure == None
    else after == before && failure == Some(MessageNotDelivered)
  }

  class TelegramBot {
    const cluster: Cluster

    /** The messages that Telegram has accepted, in order. */
    var outbox: seq<Message>

    constructor (cluster: Cluster)
      ensures this.cluster == cluster && outbox == []
    {
      this.cluster := cluster;
      outbox := [];
    }

    /** Sends one message, unless the request to Telegram fails. */
    method SendMessage(chat: ChatId, body: Body, delivered: bool) returns (failure: Option<Error>)
      modifies this
      ensures failure == if delivered then None else Some(MessageNotDelivered)
      ensures outbox == old(outbox) + Accepted(chat, body, delivered)
    {
      if delivered {
        outbox := outbox + [Message(chat, body)];
        failure := None;
      } else {
        failure := Some(MessageNotDelivered);
      }
    }

    method HandleHelp(chat: ChatId, delivered: bool) returns (failure: Option<Error>)
      modifies this
      ensures failure == FailureOf(Some(HelpText), delivered)
      ensures outbox == old(outbox) + Accepted(chat, HelpText, delivered)
    {
      failure := SendMessage(chat, HelpText, delivered);
    }

    /** The transaction of /send_notifications, after the query whether the contact exists. */
    method Activate(chat: ChatId, known: bool) returns (r: Result<Reply>)
      modifies cluster
      ensures Outcome(cluster.db, r) == Subscribe(old(cluster.db), chat, known)
    {
      var transaction := new Transaction.Begin(cluster);
      if !known {
        var failure := transaction.Execute(InsertContact(transaction.work, chat));
        if failure.Some? {
          return Err(failure.value);
        }
        transaction.Commit();
        return Ok(Done);
      }
      var contacts := transaction.work.contacts;
      if chat in contacts && !contacts[chat] {
        var _ := transaction.Execute(Ok(transaction.work.(contacts := contacts[chat := true])));
        transaction.Commit();
        return Ok(Done);
      }
      transaction.Rollback();
      return Ok(NotChanged);
    }

    method HandleSendNotifications(chat: ChatId, known: bool, delivered: bool) returns (failure: Option<Error>)
      modifies this, cluster
      ensures cluster.db == Subscribe(old(cluster.db), chat, known).db
      ensures failure == FailureOf(Answer(old(cluster.db), chat, SendNotifications, known), delivered)
      ensures outbox == old(outbox) +
        Answered(chat, Answer(old(cluster.db), chat, SendNotifications, known), delivered)
    {
      var r := Activate(chat, known);
      if r.Err? {
        return Some(r.error);
      }
      failure := SendMessage(chat, if r.value == Done then SubscribedText else AlreadySubscribedText, delivered);
    }

    /** The transaction of /stop_notifications. */
    method Deactivate(chat: ChatId) returns (r: Result<Reply>)
      modifies cluster
      ensures Outcome(cluster.db, r) == Unsubscribe(old(cluster.db), chat)
    {
      var transaction := new Transaction.Begin(cluster);
      var contacts := transaction.work.contacts;
      if chat in contacts && contacts[chat] {
        var _ := transaction.Execute(Ok(transaction.work.(contacts := contacts[chat := false])));
        transaction.Commit();
        return Ok(Done);
      }
      transaction.Rollback();
      return Ok(NotChanged);
    }

    method HandleStopNotifications(chat: ChatId, delivered: bool) returns (failure: Option<Error>)
      modifies this, cluster
      ensures cluster.db == Unsubscribe(old(cluster.db), chat).db
      ensures failure == FailureOf(Answer(old(cluster.db), chat, StopNotifications, true), delivered)
      ensures outbox == old(outbox) + Answered(chat, Answer(old(cluster.db), chat, StopNotifications, true), delivered)
    {
      var r := Deactivate(chat);
      failure := SendMessage(chat, if r == Ok(Done) then UnsubscribedText else NotSubscribedText, delivered);
    }

    /** Only the two subscription commands change anything, and only for the chat that sends them. The
        change is committed before the answer is sent, so it stays when the answer is lost. The answer
        known of the existence query may be stale. */
    method HandleUpdate(chat: ChatId, text: Option<string>, known: bool, delivered: bool)
      returns (failure: Option<Error>)
      modifies this, cluster
      // No other table and no other chat is touched.
      ensures cluster.db == old(cluster.db).(contacts := cluster.db.contacts)
      ensures forall c :: c != chat ==> (ChatActive(cluster.db, c) <==> ChatActive(old(cluster.db), c))
      // An update without a text is ignored.
      ensures text.None? ==> cluster.db == old(cluster.db) && outbox == old(outbox) && failure == None
      // A stop takes effect, and says whether there was anything to stop.
      ensures text == Some("/stop_notifications") ==>
        cluster.db.contacts ==
          if chat in old(cluster.db).contacts then old(cluster.db).contacts[chat := false]
          else old(cluster.db).contacts
      ensures text == Some("/stop_notifications") ==> !ChatActive(cluster.db, chat)
      ensures text == Some("/stop_notifications") ==> Answers(old(outbox), outbox, chat, delivered, failure,
        if ChatActive(old(cluster.db), chat) then UnsubscribedText else NotSubscribedText)
      // A subscription takes effect unless the query missed the contact, or saw one that is not there.
      ensures text == Some("/send_notifications") ==>
        cluster.db.contacts ==
          if known == (chat in old(cluster.db).contacts) then old(cluster.db).contacts[chat := true]
          else old(cluster.db).contacts
      ensures text == Some("/send_notifications") ==> (ChatActive(cluster.db, chat) <==>
        ChatActive(old(cluster.db), chat) || known == (chat in old(cluster.db).contacts))
      ensures text == Some("/send_notifications") && !known && chat in old(cluster.db).contacts ==>
        cluster.db == old(cluster.db) && outbox == old(outbox) && failure == Some(UniqueViolation)
      ensures text == Some("/send_notifications") && !known && chat !in old(cluster.db).contacts ==>
        Answers(old(outbox), outbox, chat, delivered, failure, SubscribedText)
      ensures text == Some("/send_notifications") && known ==> Answers(old(outbox), outbox, chat, delivered, failure,
        if chat in old(cluster.db).contacts && !old(cluster.db).contacts[chat] then SubscribedText
        else AlreadySubscribedText)
      // Any other text is a call for help.
      ensures text.Some? && text.value != "/send_notifications" && text.value != "/stop_notifications" ==>
        cluster.db == old(cluster.db) && Answers(old(outbox), outbox, chat, delivered, failure, HelpText)
    {
      if text.None? {
        return None;
      }
      if text.value !in COMMANDS {
        failure := HandleHelp(chat, delivered);
        return;
      }
      match COMMANDS[text.value] {
        case Start | Help => failure := HandleHelp(chat, delivered);
        case SendNotifications => failure := HandleSendNotifications(chat, known, delivered);
        case StopNotifications => failure := HandleStopNotifications(chat, delivered);
      }
    }
  }
}
