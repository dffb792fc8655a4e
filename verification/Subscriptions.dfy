/** The Telegram subscription machine, as a function of the command history. */
module Subscriptions {
  import opened Prelude
  import opened Tables
  import opened Requests
  import opened History
  import opened Footprints

  datatype BotCommand = Start | Help | SendNotifications | StopNotifications

  /** The subscription command of a chat that a transaction carries out. */
  function CommandOf(tx: Tx, chat: ChatId): Option<BotCommand> {
    match tx
    case OnContact(SubscribeTx(c, _)) => if c == chat then Some(SendNotifications) else None
    case OnContact(UnsubscribeTx(c)) => if c == chat then Some(StopNotifications) else None
    case _ => None
  }

  /** The latest command of a chat whose transaction was committed. */
  function LastApplied(sha: Sha512, h: seq<Tx>, chat: ChatId): Option<BotCommand> {
    if h == [] then None
    else
      var before, tx := h[..|h| - 1], h[|h| - 1];
      if CommandOf(tx, chat).Some? && Apply(sha, Exec(sha, before), tx).reply == Ok(Done) then CommandOf(tx, chat)
      else LastApplied(sha, before, chat)
  }

  /** The latest command of a chat, applied or not. */
  function LastIssued(h: seq<Tx>, chat: ChatId): Option<BotCommand> {
    if h == [] then None
    else if CommandOf(h[|h| - 1], chat).Some? then CommandOf(h[|h| - 1], chat)
    else LastIssued(h[..|h| - 1], chat)
  }

  predicate EverSubscribed(h: seq<Tx>, chat: ChatId) {
    exists i :: 0 <= i < |h| && CommandOf(h[i], chat) == Some(SendNotifications)
  }

  /** A contact is what a command has made of it: absent, active or inactive. */
  predicate Shows(contacts: map<ChatId, bool>, chat: ChatId, last: Option<BotCommand>) {
    match last
    case Some(SendNotifications) => chat in contacts && contacts[chat]
    case Some(StopNotifications) => chat in contacts && !contacts[chat]
    case _ => chat !in contacts
  }

  lemma ContactStep(db: Db, tx: BotTx, chat: ChatId, last: Option<BotCommand>)
    requires Shows(db.contacts, chat, last)
    ensures Shows(ApplyContact(db, tx).db.contacts, chat,
      if CommandOf(OnContact(tx), chat).Some? && ApplyContact(db, tx).reply == Ok(Done)
      then CommandOf(OnContact(tx), chat) else last)
  {
    match tx
    case SubscribeTx(c, known) => SubscribeFootprint(db, c, known);
    case UnsubscribeTx(c) => UnsubscribeFootprint(db, c);
  }

  /** Contact state is the fold of the applied commands, whatever else happened in between. */
  lemma {:induction false} ContactIsLastApplied(sha: Sha512, h: seq<Tx>, chat: ChatId)
    ensures Shows(Exec(sha, h).contacts, chat, LastApplied(sha, h, chat))
    decreases |h|
  {
    if h != [] {
      var before, tx := h[..|h| - 1], h[|h| - 1];
      ContactIsLastApplied(sha, before, chat);
      if tx.OnContact? {
        ContactStep(Exec(sha, before), tx.contact, chat, LastApplied(sha, before, chat));
      } else {
        OnlyCommandsTouchContacts(sha, Exec(sha, before), tx);
      }
    }
  }

  /** Every subscription saw the current contacts. */
  ghost predicate CurrentReads(sha: Sha512, h: seq<Tx>) {
    forall i :: 0 <= i < |h| ==> CurrentRead(Exec(sha, h[..i]), h[i])
  }

  predicate CurrentRead(db: Db, tx: Tx) {
    tx.OnContact? && tx.contact.SubscribeTx? ==> tx.contact.known == (tx.contact.chat in db.contacts)
  }

  lemma CurrentReadsPrefix(sha: Sha512, h: seq<Tx>)
    requires CurrentReads(sha, h) && h != []
    ensures CurrentReads(sha, h[..|h| - 1]) && CurrentRead(Exec(sha, h[..|h| - 1]), h[|h| - 1])
  {
    var before := h[..|h| - 1];
    forall i | 0 <= i < |before|
      ensures CurrentRead(Exec(sha, before[..i]), before[i])
    {
      assert before[..i] == h[..i];
    }
  }

  /** Absent before the first /send_notifications, active after a last /send_notifications, inactive
      after a /stop_notifications that follows one. */
  predicate ShowsIssued(contacts: map<ChatId, bool>, chat: ChatId, ever: bool, last: Option<BotCommand>) {
    && (chat in contacts <==> ever)
    && (ever ==> (contacts[chat] <==> last == Some(SendNotifications)))
  }

  lemma EverSubscribedStep(before: seq<Tx>, tx: Tx, chat: ChatId)
    ensures EverSubscribed(before + [tx], chat) <==>
      EverSubscribed(before, chat) || CommandOf(tx, chat) == Some(SendNotifications)
    ensures LastIssued(before + [tx], chat) ==
      if CommandOf(tx, chat).Some? then CommandOf(tx, chat) else LastIssued(before, chat)
  {
    var h := before + [tx];
    assert h[..|before|] == before && h[|before|] == tx;
    assert forall i :: 0 <= i < |before| ==> h[i] == before[i];
  }

  lemma SubscribeShows(db: Db, c: ChatId, chat: ChatId, ever: bool, last: Option<BotCommand>)
    requires ShowsIssued(db.contacts, chat, ever, last)
    ensures ShowsIssued(Subscribe(db, c, c in db.contacts).db.contacts, chat, ever || c == chat,
                        if c == chat then Some(SendNotifications) else last)
  {
    var next := Subscribe(db, c, c in db.contacts).db.contacts;
    assert next == db.contacts || next == db.contacts[c := true];
    assert c in next && next[c];
  }

  lemma UnsubscribeShows(db: Db, c: ChatId, chat: ChatId, ever: bool, last: Option<BotCommand>)
    requires ShowsIssued(db.contacts, chat, ever, last)
    ensures ShowsIssued(Unsubscribe(db, c).db.contacts, chat, ever, if c == chat then Some(StopNotifications) else last)
  {
    assert Unsubscribe(db, c).db.contacts ==
      if c in db.contacts then db.contacts[c := false] else db.contacts;
  }

  lemma IssuedStep(db: Db, tx: BotTx, chat: ChatId, ever: bool, last: Option<BotCommand>)
    requires ShowsIssued(db.contacts, chat, ever, last) && CurrentRead(db, OnContact(tx))
    ensures ShowsIssued(ApplyContact(db, tx).db.contacts, chat,
      ever || CommandOf(OnContact(tx), chat) == Some(SendNotifications),
      if CommandOf(OnContact(tx), chat).Some? then CommandOf(OnContact(tx), chat) else last)
  {
    match tx
    case SubscribeTx(c, known) => SubscribeShows(db, c, chat, ever, last);
    case UnsubscribeTx(c) => UnsubscribeShows(db, c, chat, ever, last);
  }

  /** With current reads the issued commands alone decide: every command takes effect. */
  lemma {:induction false} ContactIsLastIssued(sha: Sha512, h: seq<Tx>, chat: ChatId)
    requires CurrentReads(sha, h)
    ensures ShowsIssued(Exec(sha, h).contacts, chat, EverSubscribed(h, chat), LastIssued(h, chat))
    decreases |h|
  {
    if h != [] {
      var before, tx := h[..|h| - 1], h[|h| - 1];
      CurrentReadsPrefix(sha, h);
      ContactIsLastIssued(sha, before, chat);
      assert h == before + [tx];
      EverSubscribedStep(before, tx, chat);
      if tx.OnContact? {
        IssuedStep(Exec(sha, before), tx.contact, chat, EverSubscribed(before, chat), LastIssued(before, chat));
      } else {
        OnlyCommandsTouchContacts(sha, Exec(sha, before), tx);
      }
    }
  }

  /** /send_notifications subscribes the chat, unless it already was subscribed, if and only if the answer
      known of the existence query is right. */
  lemma SubscribingTakesEffect(db: Db, chat: ChatId, known: bool)
    ensures var next := Subscribe(db, chat, known).db.contacts;
      (chat in next && next[chat]) <==>
        (chat in db.contacts && db.contacts[chat]) || known == (chat in db.contacts)
  {
  }

  /** After subscribe, stop and subscribe the chat is not subscribed, if the last query misses the contact. */
  lemma StaleReadLosesACommand(sha: Sha512, chat: ChatId)
    ensures var h := [OnContact(SubscribeTx(chat, false)), OnContact(UnsubscribeTx(chat)),
                      OnContact(SubscribeTx(chat, false))];
      && LastIssued(h, chat) == Some(SendNotifications)
      && chat in Exec(sha, h).contacts && !Exec(sha, h).contacts[chat]
  {
    var a, b := OnContact(SubscribeTx(chat, false)), OnContact(UnsubscribeTx(chat));
    var h := [a, b, a];
    ExecStep(sha, h, 0);
    ExecStep(sha, h, 1);
    ExecStep(sha, h, 2);
    assert h[..3] == h && h[..0] == [];
    assert Exec(sha, h[..1]).contacts == map[chat := true];
    assert Exec(sha, h[..2]).contacts == map[chat := false];
  }
}
