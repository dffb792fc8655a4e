/** Subscription commands in runs, where the existence query may see an earlier version. */
module StaleCommands {
  import opened Prelude
  import opened Tables
  import opened Requests
  import opened History
  import opened Footprints
  import opened Identity
  import opened Subscriptions
  import opened Protocol
  import opened ProtocolSafety
  import opened Runs

  lemma ContactStaysInOneStep(sha: Sha512, db: Db, tx: Tx, chat: ChatId)
    requires chat in db.contacts
    ensures chat in Apply(sha, db, tx).db.contacts
  {
    match tx
    case OnContact(t) => CommandKeepsContact(db, t, chat);
    case _ => OnlyCommandsTouchContacts(sha, db, tx);
  }

  lemma CommandKeepsContact(db: Db, tx: BotTx, chat: ChatId)
    requires chat in db.contacts
    ensures chat in ApplyContact(db, tx).db.contacts
  {
    match tx
    case SubscribeTx(c, known) => SubscribeFootprint(db, c, known);
    case UnsubscribeTx(c) => UnsubscribeFootprint(db, c);
  }

  lemma ContactInNextVersion(sha: Sha512, h: seq<Tx>, k: nat, chat: ChatId)
    requires k < |h| && chat in Version(sha, h, k).contacts
    ensures chat in Version(sha, h, k + 1).contacts
  {
    VersionStep(sha, h, k);
    ContactStaysInOneStep(sha, Version(sha, h, k), h[k], chat);
  }

  /** No transaction removes a contact. */
  lemma {:induction false} ContactsStay(sha: Sha512, h: seq<Tx>, j: nat, k: nat, chat: ChatId)
    requires j <= k <= |h| && chat in Version(sha, h, j).contacts
    ensures chat in Version(sha, h, k).contacts
    decreases k - j
  {
    if j < k {
      ContactInNextVersion(sha, h, j, chat);
      ContactsStay(sha, h, j + 1, k, chat);
    }
  }

  lemma ExecAfterSubscription(sha: Sha512, h: seq<Tx>, chat: ChatId, known: bool)
    ensures Exec(sha, h + [OnContact(SubscribeTx(chat, known))]) == Subscribe(Exec(sha, h), chat, known).db
  {
    ExecNext(sha, h, OnContact(SubscribeTx(chat, known)));
    assert Apply(sha, Exec(sha, h), OnContact(SubscribeTx(chat, known))) == Subscribe(Exec(sha, h), chat, known);
  }

  lemma SubscriptionFails(db: Db, next: Db, chat: ChatId, known: bool)
    requires next == Subscribe(db, chat, known).db
    ensures !ChatActive(next, chat) <==> !ChatActive(db, chat) && known != (chat in db.contacts)
  {
    SubscribingTakesEffect(db, chat, known);
  }

  lemma ContactIsStillThere(sha: Sha512, h: seq<Tx>, seen: nat, chat: ChatId)
    requires seen <= |h| && chat in Version(sha, h, seen).contacts
    ensures chat in Exec(sha, h).contacts
  {
    ContactsStay(sha, h, seen, |h|, chat);
    LastVersion(sha, h);
  }

  /** In every run, a /send_notifications whose query saw version seen leaves its chat unsubscribed exactly
      if the contact is stored and inactive, and version seen did not have it yet. */
  lemma CommandIsLostExactly(sha: Sha512, actions: seq<Action>, chat: ChatId, known: bool, seen: nat)
    requires Run(sha, actions)
    requires Enabled(sha, After(sha, actions), Commit(OnContact(SubscribeTx(chat, known)), seen))
    ensures var h := After(sha, actions).history;
      var next := Do(sha, After(sha, actions), Commit(OnContact(SubscribeTx(chat, known)), seen)).history;
      !ChatActive(Exec(sha, next), chat) <==>
        chat in Exec(sha, h).contacts && !Exec(sha, h).contacts[chat] && chat !in Version(sha, h, seen).contacts
  {
    var h := After(sha, actions).history;
    if chat in Version(sha, h, seen).contacts {
      ContactIsStillThere(sha, h, seen, chat);
    }
    ExecAfterSubscription(sha, h, chat, known);
    SubscriptionFails(Exec(sha, h), Exec(sha, h + [OnContact(SubscribeTx(chat, known))]), chat, known);
  }

  /** Subscribe, stop, and subscribe again with a query that still sees the empty database. */
  function LosingRun(chat: ChatId): seq<Action> {
    [Commit(OnContact(SubscribeTx(chat, false)), 0)]
    + [Commit(OnContact(UnsubscribeTx(chat)), 0)]
    + [Commit(OnContact(SubscribeTx(chat, false)), 0)]
  }

  /** Such a run exists for every chat, and it loses the last command. */
  lemma StaleReadLosesACommandInARun(sha: Sha512, chat: ChatId)
    ensures Run(sha, LosingRun(chat))
    ensures var h := After(sha, LosingRun(chat)).history;
      LastIssued(h, chat) == Some(SendNotifications) && !ChatActive(Exec(sha, h), chat)
  {
    var a, b := OnContact(SubscribeTx(chat, false)), OnContact(UnsubscribeTx(chat));
    assert Run(sha, []) && After(sha, []) == INITIAL;
    RequestRuns(sha, [], a);
    RequestRuns(sha, [] + [Commit(a, 0)], b);
    RequestRuns(sha, [] + [Commit(a, 0)] + [Commit(b, 0)], a);
    assert LosingRun(chat) == [] + [Commit(a, 0)] + [Commit(b, 0)] + [Commit(a, 0)];
    assert [] + [a] + [b] + [a] == [a, b, a];
    StaleReadLosesACommand(sha, chat);
  }
}
