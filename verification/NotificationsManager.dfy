/** Batches and notifications. SendBatch is a series of transactions; every other method is one. */
module NotificationManagement {
  import opened Prelude
  import opened Tables
  import opened Requests
  import opened RequestEffects
  import opened Storage
  import opened Outreach
  import opened TelegramBotting

  /** What one call of SendBatch has done: the deliveries it went through, the ids of the notifications
      it has committed, and the number of messages it has sent. */
  datatype SendRun = SendRun(order: seq<Delivery>, ids: seq<Uuid>, sent: nat)

  /** The notifications of the first deliveries have been added, and nothing else. */
  ghost predicate Adds(
    before: map<Uuid, NotificationRow>, after: map<Uuid, NotificationRow>,
    batch: Uuid, order: seq<Delivery>, ids: seq<Uuid>, clock: nat -> int)
  {
    && |ids| <= |order|
    && Distinct(ids)
    && (forall i :: i in after <==> i in before || i in ids)
    && (forall i :: i in before ==> i !in ids && after[i] == before[i])
    && (forall n :: 0 <= n < |ids| ==>
          after[ids[n]] == TelegramNotification(clock(n), batch, order[n].recipient, order[n].group))
  }

  lemma AddsOneMore(
    before: map<Uuid, NotificationRow>, after: map<Uuid, NotificationRow>, next: map<Uuid, NotificationRow>,
    batch: Uuid, order: seq<Delivery>, ids: seq<Uuid>, clock: nat -> int, id: Uuid)
    requires Adds(before, after, batch, order, ids, clock) && |ids| < |order| && id !in after
    requires next == after[id := TelegramNotification(clock(|ids|), batch, order[|ids|].recipient, order[|ids|].group)]
    ensures Adds(before, next, batch, order, ids + [id], clock)
  {
    forall n | 0 <= n < |ids|
      ensures ids[n] != id
    {
      assert ids[n] in ids;
    }
  }

  /** A notification for this delivery can refer to its batch, recipient and group. */
  predicate KeysExist(db: Db, batch: Uuid, d: Delivery) {
    batch in db.batches && d.recipient in db.recipients && d.group in db.groups
  }

  /** The call stopped at a colliding id, before its message, or at a message that was not accepted. */
  ghost predicate Interrupted(
    notifications: map<Uuid, NotificationRow>, uuids: nat -> Uuid, delivered: nat -> bool, error: Error, run: SendRun)
  {
    || (error == UniqueViolation && run.sent == |run.ids| < |run.order| && uuids(|run.ids|) in notifications)
    || (error == MessageNotDelivered && run.sent + 1 == |run.ids| && !delivered(run.sent))
  }

  /** Since before, the first notifications of the run have been added, with the drawn ids. */
  ghost predicate Progress(before: Db, now: Db, batch: Uuid, run: SendRun, uuids: nat -> Uuid, clock: nat -> int) {
    && now == before.(notifications := now.notifications)
    && Adds(before.notifications, now.notifications, batch, run.order, run.ids, clock)
    && forall n :: 0 <= n < |run.ids| ==> run.ids[n] == uuids(n)
  }

  lemma CreationFailsOnlyOnItsId(db: Db, id: Uuid, created: int, batch: Uuid, d: Delivery)
    requires KeysExist(db, batch, d)
    ensures Requests.CreateNotification(db, id, Telegram, created, batch, d.recipient, d.group) ==
      if id in db.notifications then Outcome(db, Err(UniqueViolation))
      else Outcome(
        db.(notifications := db.notifications[id := TelegramNotification(created, batch, d.recipient, d.group)]),
        Ok(NewNotification(id)))
  {
  }

  /** The state after one notification and its message, and why the call stops there if it does. */
  datatype Step = Step(db: Db, outbox: seq<Message>, failure: Option<Error>)

  function DeliverOne(
    db: Db, outbox: seq<Message>, id: Uuid, created: int, batch: Uuid, d: Delivery, delivered: bool): Step
  {
    var outcome := Requests.CreateNotification(db, id, Telegram, created, batch, d.recipient, d.group);
    match outcome.reply
    case Err(e) => Step(outcome.db, outbox, Some(e))
    case Ok(_) =>
      if delivered then Step(outcome.db, outbox + [MessageOf(d)], None)
      else Step(outcome.db, outbox, Some(MessageNotDelivered))
  }

  lemma DeliveryExactly(
    db: Db, outbox: seq<Message>, id: Uuid, created: int, batch: Uuid, d: Delivery, delivered: bool)
    requires KeysExist(db, batch, d)
    ensures DeliverOne(db, outbox, id, created, batch, d, delivered) ==
      if id in db.notifications then Step(db, outbox, Some(UniqueViolation))
      else
        var row := TelegramNotification(created, batch, d.recipient, d.group);
        var next := db.(notifications := db.notifications[id := row]);
        if delivered then Step(next, outbox + [MessageOf(d)], None)
        else Step(next, outbox, Some(MessageNotDelivered))
  {
    CreationFailsOnlyOnItsId(db, id, created, batch, d);
  }

  /** Since before, the run has added its notifications and sent its messages, and nothing else. */
  ghost predicate Reached(
    before: Db, outbox: seq<Message>, now: Db, nowOutbox: seq<Message>,
    batch: Uuid, run: SendRun, uuids: nat -> Uuid, clock: nat -> int)
  {
    && Progress(before, now, batch, run, uuids, clock)
    && run.sent <= |run.ids| <= run.sent + 1 && |run.ids| <= |run.order|
    && nowOutbox == outbox + Prefix(run.order, run.sent)
  }

  lemma NextCreation(before: Db, now: Db, batch: Uuid, run: SendRun, uuids: nat -> Uuid, clock: nat -> int, sent: nat)
    requires Progress(before, now, batch, run, uuids, clock) && |run.ids| < |run.order|
    requires KeysExist(before, batch, run.order[|run.ids|]) && uuids(|run.ids|) !in now.notifications
    ensures var n := |run.ids|;
      var row := TelegramNotification(clock(n), batch, run.order[n].recipient, run.order[n].group);
      Progress(before, now.(notifications := now.notifications[uuids(n) := row]), batch,
               SendRun(run.order, run.ids + [uuids(n)], sent), uuids, clock)
  {
    var n := |run.ids|;
    var row := TelegramNotification(clock(n), batch, run.order[n].recipient, run.order[n].group);
    AddsOneMore(before.notifications, now.notifications, now.notifications[uuids(n) := row],
                batch, run.order, run.ids, clock, uuids(n));
  }

  /** One more delivery goes through, or the call stops at it. */
  lemma NextStep(
    before: Db, outbox: seq<Message>, now: Db, nowOutbox: seq<Message>,
    batch: Uuid, run: SendRun, uuids: nat -> Uuid, clock: nat -> int, delivered: nat -> bool)
    requires Reached(before, outbox, now, nowOutbox, batch, run, uuids, clock)
    requires run.sent == |run.ids| < |run.order| && KeysExist(before, batch, run.order[run.sent])
    ensures var n := run.sent;
      var step := DeliverOne(now, nowOutbox, uuids(n), clock(n), batch, run.order[n], delivered(n));
      var next := SendRun(run.order,
        if step.failure == Some(UniqueViolation) then run.ids else run.ids + [uuids(n)],
        if step.failure.None? then n + 1 else n);
      && Reached(before, outbox, step.db, step.outbox, batch, next, uuids, clock)
      && (step.failure.Some? ==> Interrupted(step.db.notifications, uuids, delivered, step.failure.value, next))
  {
    var n := run.sent;
    DeliveryExactly(now, nowOutbox, uuids(n), clock(n), batch, run.order[n], delivered(n));
    if uuids(n) !in now.notifications {
      NextCreation(before, now, batch, run, uuids, clock, if delivered(n) then n + 1 else n);
      PrefixGrows(run.order, n);
    }
  }

  lemma PrefixGrows(order: seq<Delivery>, n: nat)
    requires n < |order|
    ensures Prefix(order, n + 1) == Prefix(order, n) + [MessageOf(order[n])]
  {
  }

  /** After the messages of before, those of the first n deliveries have gone out: each to the chat of its
      delivery, with the text of its template. */
  ghost predicate WentOut(before: seq<Message>, after: seq<Message>, order: seq<Delivery>, n: nat) {
    && n <= |order| && |after| == |before| + n && before <= after
    && forall i :: 0 <= i < n ==> after[|before| + i] == Message(order[i].chat, TemplateText(order[i].text))
  }

  /** The notifications of the first deliveries are stored, column by column, and the others are as before. */
  ghost predicate Stored(
    before: map<Uuid, NotificationRow>, after: map<Uuid, NotificationRow>, batch: Uuid, run: SendRun,
    uuids: nat -> Uuid, clock: nat -> int)
  {
    && |run.ids| <= |run.order|
    && (forall i :: i in after <==> i in before || i in run.ids)
    && (forall i :: i in before ==> i in after && after[i] == before[i])
    && forall n :: 0 <= n < |run.ids| ==>
         && run.ids[n] == uuids(n) && uuids(n) !in before && uuids(n) in after
         && after[uuids(n)]
              == NotificationRow(Telegram, clock(n), None, Some(batch), run.order[n].recipient, run.order[n].group)
  }

  lemma ReachedMeans(
    before: Db, outbox: seq<Message>, now: Db, nowOutbox: seq<Message>,
    batch: Uuid, run: SendRun, uuids: nat -> Uuid, clock: nat -> int)
    requires Reached(before, outbox, now, nowOutbox, batch, run, uuids, clock)
    ensures WentOut(outbox, nowOutbox, run.order, run.sent)
    ensures Stored(before.notifications, now.notifications, batch, run, uuids, clock)
  {
    forall n | 0 <= n < |run.ids|
      ensures run.ids[n] == uuids(n) && uuids(n) !in before.notifications && uuids(n) in now.notifications
    {
      assert run.ids[n] in run.ids;
    }
  }

  /** A call that goes through an enumeration of the targets goes through the promises, each once. */
  lemma OrderIsPromised(db: Db, user: Uuid, order: seq<Delivery>)
    requires Enumerates(order, Targets(db, user))
    ensures forall n :: 0 <= n < |order| ==>
      Promised(db, user, Membership(order[n].recipient, order[n].group), order[n].chat, order[n].text)
    ensures forall m, chat, text :: Promised(db, user, m, chat, text) ==>
      exists n :: 0 <= n < |order| && order[n] == Delivery(m.group, m.recipient, chat, text)
  {
    forall n | 0 <= n < |order|
      ensures Promised(db, user, Membership(order[n].recipient, order[n].group), order[n].chat, order[n].text)
    {
      assert order[n] in order;
      TargetIsPromised(db, user, order[n]);
    }
    forall m, chat, text | Promised(db, user, m, chat, text)
      ensures exists n :: 0 <= n < |order| && order[n] == Delivery(m.group, m.recipient, chat, text)
    {
      TargetIsPromised(db, user, Delivery(m.group, m.recipient, chat, text));
      assert m == Membership(m.recipient, m.group);
      assert Delivery(m.group, m.recipient, chat, text) in order;
    }
  }

  /** What a call that has passed its check leaves behind, in terms of the database it began with. */
  lemma SendingMeans(
    db: Db, outbox: seq<Message>, now: Db, nowOutbox: seq<Message>,
    user: Uuid, batch: Uuid, run: SendRun, uuids: nat -> Uuid, clock: nat -> int)
    requires BatchPending(db, user, batch) && Enumerates(run.order, Targets(db, user))
    requires Reached(MarkSent(db, user, batch), outbox, now, nowOutbox, batch, run, uuids, clock)
    ensures db.batches[batch] == BatchRow(false, user)
    ensures now == db.(batches := db.batches[batch := BatchRow(true, user)], notifications := now.notifications)
    ensures Stored(db.notifications, now.notifications, batch, run, uuids, clock)
    ensures WentOut(outbox, nowOutbox, run.order, run.sent)
    ensures forall n :: 0 <= n < |run.order| ==> Promised(
      db, user, Membership(run.order[n].recipient, run.order[n].group), run.order[n].chat, run.order[n].text)
    ensures run.sent == |run.order| ==> forall m, chat, text :: Promised(db, user, m, chat, text) ==>
      exists n :: 0 <= n < run.sent && run.order[n] == Delivery(m.group, m.recipient, chat, text)
        && nowOutbox[|outbox| + n] == Message(chat, TemplateText(text))
  {
    ReachedMeans(MarkSent(db, user, batch), outbox, now, nowOutbox, batch, run, uuids, clock);
    OrderIsPromised(db, user, run.order);
  }

  /** One more row is skipped or gives the next delivery. */
  lemma NextOfDeliveries(rows: seq<InfoRow>, i: nat)
    requires forall r :: r in rows && Wanted(r) ==> r.telegramId.Some?
    requires i < |rows|
    ensures var n := |Deliveries(rows[..i])|;
      if Wanted(rows[i])
      then |Deliveries(rows[..i + 1])| == n + 1 <= |Deliveries(rows)|
        && rows[i].telegramId.Some?
        && Deliveries(rows)[n] ==
             Delivery(rows[i].group, rows[i].recipient, rows[i].telegramId.value, rows[i].messageText.value)
      else |Deliveries(rows[..i + 1])| == n
  {
    NextDelivery(rows, i);
    DeliveriesPrefix(rows, i + 1);
    assert rows[i] in rows;
  }

  class NotificationsManager {
    const cluster: Cluster
    const bot: TelegramBot

    constructor (cluster: Cluster, bot: TelegramBot)
      ensures this.cluster == cluster && this.bot == bot
    {
      this.cluster := cluster;
      this.bot := bot;
    }

    method CreateBatch(user: Uuid, id: Uuid) returns (r: Result<Reply>)
      modifies cluster
      ensures Outcome(cluster.db, r) == Requests.CreateBatch(old(cluster.db), user, id)
    {
      var transaction := new Transaction.Begin(cluster);
      var failure := transaction.Execute(InsertBatch(transaction.work, id, BatchRow(false, user)));
      if failure.Some? {
        return Err(failure.value);
      }
      transaction.Commit();
      return Ok(NewBatch(id));
    }

    method CreateNotification(
      id: Uuid, kind: MessageType, created: int, batch: Uuid, recipient: Uuid, group: Uuid)
      returns (r: Result<Reply>)
      modifies cluster
      ensures Outcome(cluster.db, r)
           == Requests.CreateNotification(old(cluster.db), id, kind, created, batch, recipient, group)
    {
      var transaction := new Transaction.Begin(cluster);
      var row := NotificationRow(kind, created, None, Some(batch), recipient, group);
      var failure := transaction.Execute(InsertNotification(transaction.work, id, row));
      if failure.Some? {
        return Err(failure.value);
      }
      transaction.Commit();
      return Ok(NewNotification(id));
    }

    method CancelNotification(user: Uuid, id: Uuid) returns (r: Result<Reply>)
      modifies cluster
      ensures Outcome(cluster.db, r) == Requests.CancelNotification(old(cluster.db), user, id)
      ensures r == if Cancellable(old(cluster.db), user, id) then Ok(Done) else Err(NotificationNotFound)
      ensures r.Ok? ==> cluster.db.notifications.Keys == old(cluster.db).notifications.Keys - {id}
    {
      CancelledNotification(cluster.db, user, id);
      var transaction := new Transaction.Begin(cluster);
      if id !in ListPending(transaction.work, user) {
        transaction.Rollback();
        return Err(NotificationNotFound);
      }
      var notifications := transaction.work.notifications - {id};
      var _ := transaction.Execute(Ok(transaction.work.(notifications := notifications)));
      transaction.Commit();
      return Ok(Done);
    }

    /** The rows of the five-table query, in an arbitrary order. */
    method QueryTargets(user: Uuid) returns (rows: seq<InfoRow>)
      ensures forall r :: r in rows && Wanted(r) ==> r.telegramId.Some?
      ensures Enumerates(Deliveries(rows), Targets(cluster.db, user))
    {
      var db := cluster.db;
      var keys := Scan(InnerJoin(db, user));
      rows := [];
      for i := 0 to |keys|
        invariant |rows| == i
        invariant forall j :: 0 <= j < i ==> Joins(db, user, keys[j]) && rows[j] == InfoRowOf(db, keys[j])
      {
        assert keys[i] in InnerJoin(db, user);
        rows := rows + [InfoRowOf(db, keys[i])];
      }
      forall i | 0 <= i < |keys|
        ensures Joins(db, user, keys[i])
      {
        assert keys[i] in InnerJoin(db, user);
      }
      QueryRefinesTargets(db, user, rows, keys);
    }

    /** One notification, and then its message. */
    method Deliver(id: Uuid, created: int, batch: Uuid, d: Delivery, delivered: bool) returns (failure: Option<Error>)
      modifies cluster, bot
      ensures Step(cluster.db, bot.outbox, failure)
           == DeliverOne(old(cluster.db), old(bot.outbox), id, created, batch, d, delivered)
      ensures bot.outbox ==
        old(bot.outbox) + if failure.None? then [Message(d.chat, TemplateText(d.text))] else []
      ensures failure.None? ==>
        && delivered && id !in old(cluster.db).notifications
        && cluster.db == old(cluster.db).(notifications := old(cluster.db).notifications[
             id := NotificationRow(Telegram, created, None, Some(batch), d.recipient, d.group)])
    {
      var stored := CreateNotification(id, Telegram, created, batch, d.recipient, d.group);
      if stored.Err? {
        return Some(stored.error);
      }
      failure := bot.SendMessage(d.chat, TemplateText(d.text), delivered);
    }

    /** The loop of SendBatch over the rows of its query. */
    method DeliverRows(rows: seq<InfoRow>, batch: Uuid, uuids: nat -> Uuid, clock: nat -> int, delivered: nat -> bool)
      returns (r: Result<seq<Uuid>>, ghost run: SendRun)
      requires forall row :: row in rows && Wanted(row) ==> row.telegramId.Some?
      requires forall d :: d in Deliveries(rows) ==> KeysExist(cluster.db, batch, d)
      modifies cluster, bot
      ensures run.order == Deliveries(rows)
      ensures Reached(old(cluster.db), old(bot.outbox), cluster.db, bot.outbox, batch, run, uuids, clock)
      ensures WentOut(old(bot.outbox), bot.outbox, run.order, run.sent)
      ensures Stored(old(cluster.db).notifications, cluster.db.notifications, batch, run, uuids, clock)
      ensures r.Ok? <==> run.sent == |run.order|
      ensures r.Ok? ==> r.value == run.ids
      ensures r.Err? ==> Interrupted(cluster.db.notifications, uuids, delivered, r.error, run)
    {
      var ids: seq<Uuid> := [];
      run := SendRun(Deliveries(rows), ids, 0);
      for i := 0 to |rows|
        invariant run == SendRun(Deliveries(rows), ids, |ids|) && |ids| == |Deliveries(rows[..i])|
        invariant Reached(old(cluster.db), old(bot.outbox), cluster.db, bot.outbox, batch, run, uuids, clock)
      {
        NextOfDeliveries(rows, i);
        if rows[i].active != Some(true) {
          continue;
        }
        if rows[i].messageText.None? {
          continue;
        }
        // telegram_id is read as a non-optional column here: it is never NULL.
        assert rows[i].telegramId.Some?;
        var d := Delivery(rows[i].group, rows[i].recipient, rows[i].telegramId.value, rows[i].messageText.value);
        var n := |ids|;
        assert run.order[n] in run.order;
        NextStep(old(cluster.db), old(bot.outbox), cluster.db, bot.outbox, batch, run, uuids, clock, delivered);
        var failure := Deliver(uuids(n), clock(n), batch, d, delivered(n));
        if failure != Some(UniqueViolation) {
          ids := ids + [uuids(n)];
        }
        if failure.Some? {
          run := SendRun(run.order, ids, n);
          ReachedMeans(old(cluster.db), old(bot.outbox), cluster.db, bot.outbox, batch, run, uuids, clock);
          return Err(failure.value), run;
        }
        run := SendRun(run.order, ids, |ids|);
      }
      assert rows[..|rows|] == rows;
      ReachedMeans(old(cluster.db), old(bot.outbox), cluster.db, bot.outbox, batch, run, uuids, clock);
      return Ok(ids), run;
    }

    /** The update, the query and the loop of SendBatch, after a check that has passed. */
    method SendPending(user: Uuid, batch: Uuid, uuids: nat -> Uuid, clock: nat -> int, delivered: nat -> bool)
      returns (r: Result<seq<Uuid>>, ghost run: SendRun)
      requires BatchPending(cluster.db, user, batch)
      modifies cluster, bot
      ensures Enumerates(run.order, Targets(old(cluster.db), user))
      ensures Reached(
        MarkSent(old(cluster.db), user, batch), old(bot.outbox), cluster.db, bot.outbox, batch, run, uuids, clock)
      ensures r.Ok? <==> run.sent == |run.order|
      ensures r.Ok? ==> r.value == run.ids
      ensures r.Err? ==> Interrupted(cluster.db.notifications, uuids, delivered, r.error, run)
    {
      var transaction := new Transaction.Begin(cluster);
      var _ := transaction.Execute(Ok(MarkSent(transaction.work, user, batch)));
      transaction.Commit();
      TargetsIgnoreBatches(old(cluster.db), cluster.db, user);
      var rows := QueryTargets(user);
      assert forall d :: d in Deliveries(rows) ==> d in Targets(cluster.db, user);
      r, run := DeliverRows(rows, batch, uuids, clock, delivered);
    }

    /** Draws the n-th id from uuids, reads the n-th time from clock, and learns from delivered whether
        the n-th message went out. */
    method SendBatch(user: Uuid, batch: Uuid, uuids: nat -> Uuid, clock: nat -> int, delivered: nat -> bool)
      returns (r: Result<seq<Uuid>>, ghost run: SendRun)
      modifies cluster, bot
      // A batch that is missing, of another user, or already sent: nothing happens.
      ensures r == Err(BatchNotFound) <==>
        !(batch in old(cluster.db).batches && old(cluster.db).batches[batch] == BatchRow(false, user))
      ensures r == Err(BatchNotFound) ==> cluster.db == old(cluster.db) && bot.outbox == old(bot.outbox)
      // Otherwise the batch is marked, the notifications of the first deliveries are added, and nothing
      // else changes.
      ensures r != Err(BatchNotFound) ==> cluster.db == old(cluster.db).(
        batches := old(cluster.db).batches[batch := BatchRow(true, user)], notifications := cluster.db.notifications)
      ensures r != Err(BatchNotFound) ==>
        Stored(old(cluster.db).notifications, cluster.db.notifications, batch, run, uuids, clock)
      // The messages of the first deliveries go out, in order, at most one fewer than the notifications.
      ensures r != Err(BatchNotFound) ==>
        && run.sent <= |run.ids| <= run.sent + 1 && |run.ids| <= |run.order|
        && |bot.outbox| == |old(bot.outbox)| + run.sent && old(bot.outbox) <= bot.outbox
        && forall n :: 0 <= n < run.sent ==>
             bot.outbox[|old(bot.outbox)| + n] == Message(run.order[n].chat, TemplateText(run.order[n].text))
      // The deliveries are what the database promises when the call begins, each once.
      ensures r != Err(BatchNotFound) ==> Enumerates(run.order, Targets(old(cluster.db), user))
      ensures r != Err(BatchNotFound) ==> forall n :: 0 <= n < |run.order| ==> Promised(
        old(cluster.db), user, Membership(run.order[n].recipient, run.order[n].group),
        run.order[n].chat, run.order[n].text)
      // Success means that every promise is kept: the chat of the member gets the text of the template.
      ensures r.Ok? <==> r != Err(BatchNotFound) && run.sent == |run.order|
      ensures r.Ok? ==> r.value == run.ids && |run.ids| == |run.order|
      ensures r.Ok? ==> forall m, chat, text :: Promised(old(cluster.db), user, m, chat, text) ==>
        exists n :: 0 <= n < run.sent && run.order[n] == Delivery(m.group, m.recipient, chat, text)
          && bot.outbox[|old(bot.outbox)| + n] == Message(chat, TemplateText(text))
      // The only other failures are a colliding id and a message that Telegram does not accept.
      ensures r.Err? && r != Err(BatchNotFound) ==>
        Interrupted(cluster.db.notifications, uuids, delivered, r.error, run)
      // The batch cannot be sent again by a later call.
      ensures !BatchPending(cluster.db, user, batch)
    {
      if !BatchPending(cluster.db, user, batch) {
        run := SendRun([], [], 0);
        return Err(BatchNotFound), run;
      }
      ghost var db, outbox := cluster.db, bot.outbox;
      r, run := SendPending(user, batch, uuids, clock, delivered);
      SendingMeans(db, outbox, cluster.db, bot.outbox, user, batch, run, uuids, clock);
    }
  }
}
