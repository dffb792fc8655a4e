/** Messages to chats that stopped after the query: consent is that of the version a call has read. */
module LateMessages {
  import opened Prelude
  import opened Tables
  import opened Requests
  import opened History
  import opened Footprints
  import opened SchemaIntegrity
  import opened Identity
  import opened Outreach
  import opened Subscriptions
  import opened NotificationManagement
  import opened Protocol
  import opened ProtocolSafety
  import opened Runs
  import opened DoubleEntry
  import opened UndisturbedCall
  import opened BatchEntry
  import opened SharedTemplates
  import opened SharingRuns

  // ----- When the chat is not subscribed any more -----

  /** The command of the chat that step n has applied, if there is one. */
  function AppliedAt(sha: Sha512, h: seq<Tx>, n: nat, chat: ChatId): Option<BotCommand>
    requires n < |h|
  {
    if CommandOf(h[n], chat).Some? && ReplyAt(sha, h, n) == Ok(Done) then CommandOf(h[n], chat) else None
  }

  function AppliedCommands(sha: Sha512, h: seq<Tx>, chat: ChatId): seq<Option<BotCommand>> {
    seq(|h|, n requires 0 <= n < |h| => AppliedAt(sha, h, n, chat))
  }

  /** From step j to step k a /stop_notifications was applied, and no subscription after it. */
  ghost predicate StoppedBetween(applied: seq<Option<BotCommand>>, j: nat, k: nat)
    requires j <= k <= |applied|
  {
    exists n :: j <= n < k && applied[n] == Some(StopNotifications)
      && forall m :: n < m < k ==> applied[m] != Some(SendNotifications)
  }

  lemma CommandDecides(db: Db, tx: BotTx, chat: ChatId)
    ensures ChatActive(ApplyContact(db, tx).db, chat) <==>
      if CommandOf(OnContact(tx), chat).Some? && ApplyContact(db, tx).reply == Ok(Done)
      then CommandOf(OnContact(tx), chat) == Some(SendNotifications) else ChatActive(db, chat)
  {
    match tx
    case SubscribeTx(c, known) => SubscribeFootprint(db, c, known);
    case UnsubscribeTx(c) => UnsubscribeFootprint(db, c);
  }

  /** Whether a chat is subscribed after a step that has applied this command. */
  predicate Next(applied: Option<BotCommand>, before: bool) {
    applied == Some(SendNotifications) || (applied != Some(StopNotifications) && before)
  }

  lemma ActiveStep(sha: Sha512, h: seq<Tx>, k: nat, chat: ChatId)
    requires k < |h|
    ensures ChatActive(Version(sha, h, k + 1), chat) <==>
      Next(AppliedCommands(sha, h, chat)[k], ChatActive(Version(sha, h, k), chat))
  {
    VersionStep(sha, h, k);
    if h[k].OnContact? {
      CommandDecides(Version(sha, h, k), h[k].contact, chat);
    } else {
      OnlyCommandsTouchContacts(sha, Version(sha, h, k), h[k]);
    }
  }

  lemma StoppedStep(applied: seq<Option<BotCommand>>, j: nat, k: nat)
    requires j <= k < |applied|
    ensures StoppedBetween(applied, j, k + 1) <==>
      || applied[k] == Some(StopNotifications)
      || (applied[k] != Some(SendNotifications) && StoppedBetween(applied, j, k))
  {
    if StoppedBetween(applied, j, k) && applied[k] != Some(SendNotifications) {
      var n :| j <= n < k && applied[n] == Some(StopNotifications)
        && forall m :: n < m < k ==> applied[m] != Some(SendNotifications);
      assert forall m :: n < m < k + 1 ==> applied[m] != Some(SendNotifications);
    }
  }

  lemma InactiveStep(sha: Sha512, h: seq<Tx>, j: nat, k: nat, chat: ChatId)
    requires j <= k < |h|
    requires !ChatActive(Version(sha, h, k), chat) <==> StoppedBetween(AppliedCommands(sha, h, chat), j, k)
    ensures !ChatActive(Version(sha, h, k + 1), chat) <==> StoppedBetween(AppliedCommands(sha, h, chat), j, k + 1)
  {
    ActiveStep(sha, h, k, chat);
    StoppedStep(AppliedCommands(sha, h, chat), j, k);
  }

  lemma {:induction false} InactiveFrom(sha: Sha512, h: seq<Tx>, j: nat, i: nat, k: nat, chat: ChatId)
    requires j <= i <= k <= |h|
    requires !ChatActive(Version(sha, h, i), chat) <==> StoppedBetween(AppliedCommands(sha, h, chat), j, i)
    ensures !ChatActive(Version(sha, h, k), chat) <==> StoppedBetween(AppliedCommands(sha, h, chat), j, k)
    decreases k - i
  {
    if i < k {
      InactiveStep(sha, h, j, i, chat);
      InactiveFrom(sha, h, j, i + 1, k, chat);
    }
  }

  /** A chat that was subscribed is not subscribed in a later version exactly if it was stopped in between
      and not subscribed again. */
  lemma InactiveExactly(sha: Sha512, h: seq<Tx>, j: nat, k: nat, chat: ChatId)
    requires j <= k <= |h| && ChatActive(Version(sha, h, j), chat)
    ensures !ChatActive(Version(sha, h, k), chat) <==> StoppedBetween(AppliedCommands(sha, h, chat), j, k)
  {
    InactiveFrom(sha, h, j, j, k, chat);
  }

  /** The chat of the next message that a call can send. */
  function NextChat(call: Call): ChatId
    requires call.phase.Looping? && call.phase.sent < |call.phase.pending|
  {
    call.phase.pending[call.phase.sent].chat
  }

  /** The call can send its next message now, to a chat that is not subscribed now. */
  ghost predicate SendsWithoutConsent(sha: Sha512, s: Sys, c: CallId) {
    Enabled(sha, s, Send(c)) && !ChatActive(Exec(sha, s.history), NextChat(s.calls[c]))
  }

  /** In every run a message that can be sent goes to a chat that is not subscribed at that moment exactly
      if the chat was stopped, and not subscribed again, after the version that the call has read. */
  lemma SentWithoutConsentExactly(sha: Sha512, actions: seq<Action>, c: CallId)
    requires Run(sha, actions) && Enabled(sha, After(sha, actions), Send(c))
    ensures var s := After(sha, actions);
      var call := s.calls[c];
      && call.phase.readAt <= |s.history|
      && (SendsWithoutConsent(sha, s, c) <==>
           StoppedBetween(AppliedCommands(sha, s.history, NextChat(call)), call.phase.readAt, |s.history|))
  {
    var s := After(sha, actions);
    var call := s.calls[c];
    EveryRunKeepsInv(sha, actions);
    assert CallInv(sha, s.history, call);
    SendIsConsented(sha, s.history, c, call, call.phase.sent);
    LastVersion(sha, s.history);
    InactiveExactly(sha, s.history, call.phase.readAt, |s.history|, NextChat(call));
  }

  // ----- A stop that comes too late -----

  lemma AfterStop(sha: Sha512, h: seq<Tx>, chat: ChatId)
    ensures var next := Exec(sha, h + [OnContact(UnsubscribeTx(chat))]);
      next == Exec(sha, h).(contacts := next.contacts) && !ChatActive(next, chat)
    ensures Registry(h + [OnContact(UnsubscribeTx(chat))]) == Registry(h)
  {
    var tx := OnContact(UnsubscribeTx(chat));
    ExecNext(sha, h, tx);
    UnsubscribeFootprint(Exec(sha, h), chat);
    assert (h + [tx])[..|h|] == h && (h + [tx])[|h|] == tx;
  }

  lemma StopRuns(
    sha: Sha512, actions: seq<Action>, c: CallId, batch: Uuid, order: seq<Delivery>, n: nat, id: Uuid)
    returns (run: seq<Action>)
    requires Run(sha, actions) && InRound(After(sha, actions), c, batch, order, n) && n < |order|
    requires id !in Registry(After(sha, actions).history)
    requires KeysExist(Exec(sha, After(sha, actions).history), batch, order[n])
    ensures Run(sha, run) && InRound(After(sha, run), c, batch, order, n)
    ensures After(sha, run).history == After(sha, actions).history + [OnContact(UnsubscribeTx(order[n].chat))]
    ensures After(sha, run).log == After(sha, actions).log
    ensures id !in Registry(After(sha, run).history)
    ensures KeysExist(Exec(sha, After(sha, run).history), batch, order[n])
    ensures !ChatActive(Exec(sha, After(sha, run).history), order[n].chat)
  {
    var tx := OnContact(UnsubscribeTx(order[n].chat));
    RequestRuns(sha, actions, tx);
    AfterStop(sha, After(sha, actions).history, order[n].chat);
    run := actions + [Commit(tx, 0)];
  }

  lemma NextNotificationRuns(
    sha: Sha512, actions: seq<Action>, c: CallId, batch: Uuid, order: seq<Delivery>, n: nat, id: Uuid, created: int)
    returns (run: seq<Action>)
    requires Run(sha, actions) && InRound(After(sha, actions), c, batch, order, n) && n < |order|
    requires id !in Registry(After(sha, actions).history)
    requires KeysExist(Exec(sha, After(sha, actions).history), batch, order[n])
    ensures Run(sha, run)
    ensures Enabled(sha, After(sha, run), Send(c)) && NextChat(After(sha, run).calls[c]) == order[n].chat
    ensures Exec(sha, After(sha, run).history).contacts == Exec(sha, After(sha, actions).history).contacts
  {
    NotStoredYet(sha, actions, id);
    CreateRuns(sha, actions, c, batch, order, n, id, created);
    ExecAfterCreation(sha, After(sha, actions).history, id, created, batch, order[n]);
    run := actions + [Create(c, id, created)];
  }

  /** Wherever a call is in its loop: if the next chat stops now, its message can still be sent. */
  lemma StopComesTooLate(
    sha: Sha512, actions: seq<Action>, c: CallId, batch: Uuid, order: seq<Delivery>, n: nat, id: Uuid, created: int)
    returns (run: seq<Action>)
    requires Run(sha, actions) && InRound(After(sha, actions), c, batch, order, n) && n < |order|
    requires id !in Registry(After(sha, actions).history)
    requires KeysExist(Exec(sha, After(sha, actions).history), batch, order[n])
    ensures Run(sha, run) && SendsWithoutConsent(sha, After(sha, run), c)
  {
    var stopped := StopRuns(sha, actions, c, batch, order, n, id);
    run := NextNotificationRuns(sha, stopped, c, batch, order, n, id, created);
  }

  lemma CallEntersTheLoop(
    sha: Sha512, actions: seq<Action>, c: CallId, user: Uuid, batch: Uuid, order: seq<Delivery>)
    returns (begun: seq<Action>)
    requires Run(sha, actions) && c !in After(sha, actions).calls
    requires BatchPending(Exec(sha, After(sha, actions).history), user, batch)
    requires Enumerates(order, Targets(Exec(sha, After(sha, actions).history), user))
    ensures Run(sha, begun) && InRound(After(sha, begun), c, batch, order, 0)
    ensures After(sha, begun).history == After(sha, actions).history + [OnNotification(MarkSentTx(user, batch))]
  {
    var h := After(sha, actions).history;
    LastVersion(sha, h);
    OpeningRuns(sha, actions, c, user, batch, |h|, order);
    begun := Opening(actions, c, user, batch, |h|, |h|, order);
  }

  lemma KeysExistAfterMark(sha: Sha512, h: seq<Tx>, user: Uuid, batch: Uuid, order: seq<Delivery>)
    requires batch in Exec(sha, h).batches && Enumerates(order, Targets(Exec(sha, h), user)) && order != []
    ensures KeysExist(Exec(sha, h + [OnNotification(MarkSentTx(user, batch))]), batch, order[0])
  {
    VersionAfterMark(sha, h, user, batch);
    TargetKeysExist(Exec(sha, h), user, batch, order);
  }

  /** Every run with a pending batch that reaches anyone can be continued by a call whose first message goes
      to a chat that has stopped. */
  lemma MessageToAStoppedChat(
    sha: Sha512, actions: seq<Action>, c: CallId, user: Uuid, batch: Uuid, order: seq<Delivery>, id: Uuid, created: int)
    returns (run: seq<Action>)
    requires Run(sha, actions) && c !in After(sha, actions).calls
    requires BatchPending(Exec(sha, After(sha, actions).history), user, batch)
    requires Enumerates(order, Targets(Exec(sha, After(sha, actions).history), user)) && order != []
    requires id !in Registry(After(sha, actions).history)
    ensures Run(sha, run) && SendsWithoutConsent(sha, After(sha, run), c)
  {
    var begun := CallEntersTheLoop(sha, actions, c, user, batch, order);
    KeysExistAfterMark(sha, After(sha, actions).history, user, batch, order);
    RegistryNext(After(sha, actions).history, OnNotification(MarkSentTx(user, batch)));
    run := StopComesTooLate(sha, begun, c, batch, order, 0, id, created);
  }

  // ----- From the empty store -----

  lemma {:induction false} SomeOrder<T(!new)>(all: set<T>) returns (s: seq<T>)
    ensures Enumerates(s, all)
    ensures all != {} ==> s != []
    decreases |all|
  {
    if all == {} {
      s := [];
    } else {
      var x :| x in all;
      var rest := SomeOrder(all - {x});
      s := rest + [x];
    }
  }

  lemma BatchIsMade(sha: Sha512, actions: seq<Action>, user: Uuid, batch: Uuid, other: Uuid) returns (run: seq<Action>)
    requires Run(sha, actions) && user in Exec(sha, After(sha, actions).history).users
    requires batch !in Registry(After(sha, actions).history)
    requires other !in Registry(After(sha, actions).history) && other != batch
    ensures Run(sha, run)
    ensures After(sha, run).calls == After(sha, actions).calls
    ensures other !in Registry(After(sha, run).history)
    ensures BatchPending(Exec(sha, After(sha, run).history), user, batch)
    ensures Targets(Exec(sha, After(sha, run).history), user) == Targets(Exec(sha, After(sha, actions).history), user)
  {
    var tx := OnNotification(CreateBatchTx(user, batch));
    NotStoredYet(sha, actions, batch);
    run := RequestRunsOn(sha, actions, tx);
    NewBatchIsPending(Exec(sha, After(sha, actions).history), user, batch);
    NotificationsKeepTargets(sha, Exec(sha, After(sha, actions).history), tx, user);
  }

  lemma NewBatchIsPending(db: Db, user: Uuid, batch: Uuid)
    requires user in db.users && batch !in db.batches
    ensures BatchPending(CreateBatch(db, user, batch).db, user, batch)
  {
    CreatedIsPending(db, user, batch);
  }

  lemma UserOfGroupIsStored(db: Db, v: Uuid, template: Uuid)
    requires ForeignKeys(db) && Uses(db, v, template)
    ensures v in db.users
  {
    var m :| m in db.memberships && UsesThrough(db, v, template, m);
    assert GroupReferences(db.groups[m.group], db.users, db.templates);
  }

  lemma UserOfGroupIsThere(sha: Sha512, h: seq<Tx>, v: Uuid, template: Uuid)
    requires Uses(Exec(sha, h), v, template)
    ensures v in Exec(sha, h).users
  {
    EveryStateHasIntegrity(sha, h);
    UserOfGroupIsStored(Exec(sha, h), v, template);
  }

  /** The ids that the continuation draws, none of them drawn before. */
  ghost predicate Undrawn(h: seq<Tx>, draft: Uuid, group: Uuid, batch: Uuid, id: Uuid) {
    && NewIds(h, draft, group) && NewIds(h, batch, id)
    && batch != draft && batch != group && id != draft && id != group
  }

  lemma OutsideOfTheDrawn(h: seq<Tx>, drawn: set<Uuid>, draft: Uuid, group: Uuid, batch: Uuid, id: Uuid)
    requires Registry(h).Keys == drawn
    requires draft !in drawn && group !in drawn && batch !in drawn && id !in drawn
    requires draft != group && batch != draft && batch != group && id != draft && id != group && id != batch
    ensures Undrawn(h, draft, group, batch, id)
  {
  }

  /** From a subscribed recipient and a template to a pending batch that reaches a chat. */
  lemma PendingBatchRuns(
    sha: Sha512, actions: seq<Action>, v: Uuid, template: Uuid, recipient: Uuid, draft: Uuid, group: Uuid,
    name: string, batch: Uuid, id: Uuid) returns (run: seq<Action>)
    requires Run(sha, actions) && Sharable(Exec(sha, After(sha, actions).history), v, template, recipient)
    requires Undrawn(After(sha, actions).history, draft, group, batch, id)
    ensures Run(sha, run) && After(sha, run).calls == After(sha, actions).calls
    ensures id !in Registry(After(sha, run).history)
    ensures BatchPending(Exec(sha, After(sha, run).history), v, batch)
    ensures Targets(Exec(sha, After(sha, run).history), v) != {}
  {
    var shared := SharingRunsOn(sha, actions, v, template, recipient, draft, group, name);
    UserOfGroupIsThere(sha, After(sha, shared).history, v, template);
    run := BatchIsMade(sha, shared, v, batch, id);
  }

  lemma MessageToAStoppedChatRuns(
    sha: Sha512, actions: seq<Action>, c: CallId, v: Uuid, template: Uuid, recipient: Uuid, draft: Uuid, group: Uuid,
    name: string, batch: Uuid, id: Uuid, created: int) returns (run: seq<Action>)
    requires Run(sha, actions) && Sharable(Exec(sha, After(sha, actions).history), v, template, recipient)
    requires Undrawn(After(sha, actions).history, draft, group, batch, id) && c !in After(sha, actions).calls
    ensures Run(sha, run) && SendsWithoutConsent(sha, After(sha, run), c)
  {
    var pending := PendingBatchRuns(sha, actions, v, template, recipient, draft, group, name, batch, id);
    var order := SomeOrder(Targets(Exec(sha, After(sha, pending).history), v));
    run := MessageToAStoppedChat(sha, pending, c, v, batch, order, id, created);
  }

  lemma ExampleRuns(sha: Sha512) returns (run: seq<Action>)
    ensures Run(sha, run) && Sharable(Exec(sha, After(sha, run).history), 2, 3, 4)
    ensures Undrawn(After(sha, run).history, 5, 6, 7, 8) && After(sha, run).calls == map[]
  {
    run := RecipientSubscribes(sha);
    ExampleIsSharable(sha);
    OutsideOfTheDrawn(After(sha, run).history, {1, 2, 10, 3, 11, 4}, 5, 6, 7, 8);
  }

  /** For every hash function there is a run from the empty store after which a message can be sent to a chat
      that has stopped. */
  lemma MessageToAStoppedChatInARun(sha: Sha512) returns (run: seq<Action>)
    ensures Run(sha, run) && SendsWithoutConsent(sha, After(sha, run), 0)
  {
    var before := ExampleRuns(sha);
    run := MessageToAStoppedChatRuns(sha, before, 0, 2, 3, 4, 5, 6, "g", 7, 8, 0);
  }
}
