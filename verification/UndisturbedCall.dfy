/** A call of SendBatch that nothing interrupts, as a run of the interleaved protocol: it ends as the
    contract of the sequential method says, however old the version was that it checked. */
module UndisturbedCall {
  import opened Prelude
  import opened Tables
  import opened Requests
  import opened History
  import opened Identity
  import opened Outreach
  import opened NotificationManagement
  import opened Protocol
  import opened ProtocolSafety
  import opened Runs
  import opened DoubleEntry

  /** The three actions before the loop: a check on version seen, and a query on current data. */
  function Opening(
    actions: seq<Action>, c: CallId, user: Uuid, batch: Uuid, seen: nat, now: nat, order: seq<Delivery>): seq<Action>
  {
    actions + [Start(c, user, batch, seen)] + [Mark(c)] + [Read(c, now + 1, order)]
  }

  /** The other calls, and their messages, are the same. */
  ghost predicate SameElsewhere(s: Sys, t: Sys, c: CallId) {
    forall b :: b != c ==>
      && (b in t.calls <==> b in s.calls)
      && (b in s.calls ==> t.calls[b] == s.calls[b])
      && MessagesOf(t.log, b) == MessagesOf(s.log, b)
  }

  function FirstDraws(uuids: nat -> Uuid, n: nat): seq<Uuid> {
    seq(n, i requires 0 <= i < n => uuids(i))
  }

  lemma MarkedState(sha: Sha512, actions: seq<Action>, c: CallId, user: Uuid, batch: Uuid, seen: nat)
    requires Run(sha, actions) && c !in After(sha, actions).calls && seen <= |After(sha, actions).history|
    requires BatchPending(Version(sha, After(sha, actions).history, seen), user, batch)
    ensures var s := After(sha, actions);
      var marked := actions + [Start(c, user, batch, seen)] + [Mark(c)];
      && Run(sha, marked) && HasMarked(After(sha, marked), c, user, batch)
      && After(sha, marked).history == s.history + [OnNotification(MarkSentTx(user, batch))]
      && SameElsewhere(s, After(sha, marked), c)
  {
    RunStep(sha, actions, Start(c, user, batch, seen));
    RunStep(sha, actions + [Start(c, user, batch, seen)], Mark(c));
  }

  lemma ReadRuns(
    sha: Sha512, marked: seq<Action>, c: CallId, user: Uuid, batch: Uuid, seen: nat, order: seq<Delivery>)
    requires Run(sha, marked) && seen <= |After(sha, marked).history| && HasMarked(After(sha, marked), c, user, batch)
    requires Enumerates(order, Targets(Version(sha, After(sha, marked).history, seen), user))
    ensures Run(sha, marked + [Read(c, seen, order)])
    ensures After(sha, marked + [Read(c, seen, order)]).history == After(sha, marked).history
    ensures SameElsewhere(After(sha, marked), After(sha, marked + [Read(c, seen, order)]), c)
    ensures InRound(After(sha, marked + [Read(c, seen, order)]), c, batch, order, 0)
  {
    RunStep(sha, marked, Read(c, seen, order));
  }

  /** The update changes no target, so the query that follows it gives the targets of before. */
  lemma OrderAfterMark(sha: Sha512, h: seq<Tx>, longer: seq<Tx>, user: Uuid, batch: Uuid, order: seq<Delivery>)
    requires longer == h + [OnNotification(MarkSentTx(user, batch))]
    requires Enumerates(order, Targets(Exec(sha, h), user))
    ensures Enumerates(order, Targets(Version(sha, longer, |h| + 1), user))
  {
    LastVersion(sha, longer);
    MarkKeepsTargets(sha, h, user, batch);
  }

  lemma OpeningRuns(
    sha: Sha512, actions: seq<Action>, c: CallId, user: Uuid, batch: Uuid, seen: nat, order: seq<Delivery>)
    requires Run(sha, actions) && c !in After(sha, actions).calls && seen <= |After(sha, actions).history|
    requires BatchPending(Version(sha, After(sha, actions).history, seen), user, batch)
    requires Enumerates(order, Targets(Exec(sha, After(sha, actions).history), user))
    ensures var h := After(sha, actions).history;
      var begun := Opening(actions, c, user, batch, seen, |h|, order);
      && Run(sha, begun)
      && After(sha, begun).history == h + [OnNotification(MarkSentTx(user, batch))]
      && InRound(After(sha, begun), c, batch, order, 0)
      && SameElsewhere(After(sha, actions), After(sha, begun), c)
  {
    var h := After(sha, actions).history;
    MarkedState(sha, actions, c, user, batch, seen);
    var marked := actions + [Start(c, user, batch, seen)] + [Mark(c)];
    OrderAfterMark(sha, h, After(sha, marked).history, user, batch, order);
    ReadRuns(sha, marked, c, user, batch, |h| + 1, order);
    SameThroughout(
      After(sha, actions), After(sha, marked), After(sha, marked + [Read(c, |h| + 1, order)]), c);
  }

  /** One round: the notification is stored, and its message is sent. */
  lemma RoundRuns(
    sha: Sha512, actions: seq<Action>, c: CallId, batch: Uuid, order: seq<Delivery>, n: nat, id: Uuid, created: int)
    requires Run(sha, actions) && InRound(After(sha, actions), c, batch, order, n) && n < |order|
    requires id !in Registry(After(sha, actions).history)
    requires KeysExist(Exec(sha, After(sha, actions).history), batch, order[n])
    requires id !in Exec(sha, After(sha, actions).history).notifications
    ensures var next := actions + [Create(c, id, created)] + [Send(c)];
      && Run(sha, next)
      && InRound(After(sha, next), c, batch, order, n + 1)
      && After(sha, next).history == After(sha, actions).history
           + [OnNotification(CreateNotificationTx(id, created, batch, order[n].recipient, order[n].group))]
      && SameElsewhere(After(sha, actions), After(sha, next), c)
  {
    var made := actions + [Create(c, id, created)];
    CreateRuns(sha, actions, c, batch, order, n, id, created);
    RunStep(sha, made, Send(c));
    LogOfOthers(After(sha, made).log, After(sha, made + [Send(c)]).log, c);
  }

  lemma LogOfOthers(log: seq<LogEntry>, longer: seq<LogEntry>, c: CallId)
    requires |longer| == |log| + 1 && log <= longer && longer[|log|].call == c
    ensures forall b :: b != c ==> MessagesOf(longer, b) == MessagesOf(log, b)
  {
    assert longer == log + [longer[|log|]];
    forall b | b != c
      ensures MessagesOf(longer, b) == MessagesOf(log, b)
    {
      MessagesOfLonger(log, longer[|log|], b);
    }
  }

  lemma CreateRuns(
    sha: Sha512, actions: seq<Action>, c: CallId, batch: Uuid, order: seq<Delivery>, n: nat, id: Uuid, created: int)
    requires Run(sha, actions) && InRound(After(sha, actions), c, batch, order, n) && n < |order|
    requires id !in Registry(After(sha, actions).history)
    requires KeysExist(Exec(sha, After(sha, actions).history), batch, order[n])
    requires id !in Exec(sha, After(sha, actions).history).notifications
    ensures var s := After(sha, actions);
      && Run(sha, actions + [Create(c, id, created)])
      && After(sha, actions + [Create(c, id, created)]) == s.(
           history := s.history
             + [OnNotification(CreateNotificationTx(id, created, batch, order[n].recipient, order[n].group))],
           calls := s.calls[c := WithCreated(s.calls[c], Created(id, |s.history|))])
  {
    var s := After(sha, actions);
    CreationCommits(sha, Exec(sha, s.history), s.calls[c], order[n], id, created);
    RunStep(sha, actions, Create(c, id, created));
  }

  lemma CreationCommits(sha: Sha512, db: Db, call: Call, d: Delivery, id: Uuid, created: int)
    requires KeysExist(db, call.batch, d) && id !in db.notifications
    ensures Apply(sha, db, CreationOf(call, d, id, created)).reply.Ok?
  {
    CreationFailsOnlyOnItsId(db, id, created, call.batch, d);
  }

  lemma ExecAfterCreation(sha: Sha512, h: seq<Tx>, id: Uuid, created: int, batch: Uuid, d: Delivery)
    requires KeysExist(Exec(sha, h), batch, d) && id !in Exec(sha, h).notifications
    ensures var tx := OnNotification(CreateNotificationTx(id, created, batch, d.recipient, d.group));
      var db := Exec(sha, h);
      && Exec(sha, h + [tx])
           == db.(notifications := db.notifications[id := TelegramNotification(created, batch, d.recipient, d.group)])
      && Registry(h + [tx]).Keys == Registry(h).Keys + {id}
  {
    var tx := OnNotification(CreateNotificationTx(id, created, batch, d.recipient, d.group));
    assert (h + [tx])[..|h|] == h && (h + [tx])[|h|] == tx;
    CreationFailsOnlyOnItsId(Exec(sha, h), id, created, batch, d);
  }

  /** Ids never drawn before the rounds, and no two of them equal. */
  ghost predicate FreshDraws(h: seq<Tx>, uuids: nat -> Uuid, n: nat) {
    && (forall i :: 0 <= i < n ==> uuids(i) !in Registry(h))
    && (forall i, j :: 0 <= i < j < n ==> uuids(i) != uuids(j))
  }

  /** What n rounds have done to the database since the loop was entered. */
  ghost predicate RoundsDone(
    sha: Sha512, start: seq<Tx>, h: seq<Tx>, batch: Uuid, order: seq<Delivery>,
    uuids: nat -> Uuid, clock: nat -> int, n: nat)
  {
    && n <= |order|
    && Progress(Exec(sha, start), Exec(sha, h), batch, SendRun(order, FirstDraws(uuids, n), n), uuids, clock)
    && (forall x :: x in Registry(h) ==> x in Registry(start) || x in FirstDraws(uuids, n))
  }

  lemma NothingDone(
    sha: Sha512, h: seq<Tx>, batch: Uuid, order: seq<Delivery>, uuids: nat -> Uuid, clock: nat -> int)
    ensures RoundsDone(sha, h, h, batch, order, uuids, clock, 0)
  {
    assert FirstDraws(uuids, 0) == [];
  }

  lemma OneMoreDone(
    sha: Sha512, start: seq<Tx>, h: seq<Tx>, batch: Uuid, order: seq<Delivery>,
    uuids: nat -> Uuid, clock: nat -> int, n: nat)
    requires n < |order| && RoundsDone(sha, start, h, batch, order, uuids, clock, n)
    requires KeysExist(Exec(sha, start), batch, order[n]) && uuids(n) !in Exec(sha, h).notifications
    ensures RoundsDone(sha, start,
      h + [OnNotification(CreateNotificationTx(uuids(n), clock(n), batch, order[n].recipient, order[n].group))],
      batch, order, uuids, clock, n + 1)
  {
    ExecAfterCreation(sha, h, uuids(n), clock(n), batch, order[n]);
    assert |FirstDraws(uuids, n)| == n && FirstDraws(uuids, n + 1) == FirstDraws(uuids, n) + [uuids(n)];
    NextCreation(Exec(sha, start), Exec(sha, h), batch, SendRun(order, FirstDraws(uuids, n), n), uuids, clock, n + 1);
  }

  lemma NextDrawIsFresh(
    sha: Sha512, start: seq<Tx>, h: seq<Tx>, batch: Uuid, order: seq<Delivery>,
    uuids: nat -> Uuid, clock: nat -> int, n: nat)
    requires RoundsDone(sha, start, h, batch, order, uuids, clock, n) && FreshDraws(start, uuids, n + 1)
    ensures uuids(n) !in Registry(h)
  {
    assert uuids(n) !in FirstDraws(uuids, n);
  }

  /** A run that has entered the loop in state begun and gone through n rounds. */
  ghost predicate Delivered(
    sha: Sha512, begun: Sys, run: seq<Action>, c: CallId, batch: Uuid, order: seq<Delivery>,
    uuids: nat -> Uuid, clock: nat -> int, n: nat)
  {
    && Run(sha, run) && InRound(After(sha, run), c, batch, order, n)
    && SameElsewhere(begun, After(sha, run), c)
    && RoundsDone(sha, begun.history, After(sha, run).history, batch, order, uuids, clock, n)
  }

  lemma NextRound(
    sha: Sha512, begun: Sys, actions: seq<Action>, c: CallId, batch: Uuid, order: seq<Delivery>,
    uuids: nat -> Uuid, clock: nat -> int, n: nat)
    returns (run: seq<Action>)
    requires Delivered(sha, begun, actions, c, batch, order, uuids, clock, n) && n < |order|
    requires FreshDraws(begun.history, uuids, n + 1) && KeysExist(Exec(sha, begun.history), batch, order[n])
    ensures Delivered(sha, begun, run, c, batch, order, uuids, clock, n + 1) && actions <= run
  {
    run := actions + [Create(c, uuids(n), clock(n))] + [Send(c)];
    NextDrawIsFresh(sha, begun.history, After(sha, actions).history, batch, order, uuids, clock, n);
    NotStoredYet(sha, actions, uuids(n));
    OneMoreDone(sha, begun.history, After(sha, actions).history, batch, order, uuids, clock, n);
    RoundRuns(sha, actions, c, batch, order, n, uuids(n), clock(n));
  }

  lemma {:induction false} RoundsRun(
    sha: Sha512, begun: seq<Action>, c: CallId, batch: Uuid, order: seq<Delivery>,
    uuids: nat -> Uuid, clock: nat -> int, n: nat)
    returns (run: seq<Action>)
    requires Run(sha, begun) && Delivered(sha, After(sha, begun), begun, c, batch, order, uuids, clock, 0)
    requires n <= |order| && FreshDraws(After(sha, begun).history, uuids, n)
    requires forall i :: 0 <= i < |order| ==> KeysExist(Exec(sha, After(sha, begun).history), batch, order[i])
    ensures Delivered(sha, After(sha, begun), run, c, batch, order, uuids, clock, n) && begun <= run
    decreases n
  {
    if n == 0 {
      return begun;
    }
    var before := RoundsRun(sha, begun, c, batch, order, uuids, clock, n - 1);
    run := NextRound(sha, After(sha, begun), before, c, batch, order, uuids, clock, n - 1);
  }

  /** A call that has just entered the loop delivers its whole order. */
  lemma LoopCompletes(
    sha: Sha512, begun: seq<Action>, c: CallId, batch: Uuid, order: seq<Delivery>,
    uuids: nat -> Uuid, clock: nat -> int)
    returns (run: seq<Action>)
    requires Run(sha, begun) && InRound(After(sha, begun), c, batch, order, 0)
    requires FreshDraws(After(sha, begun).history, uuids, |order|)
    requires forall i :: 0 <= i < |order| ==> KeysExist(Exec(sha, After(sha, begun).history), batch, order[i])
    ensures Delivered(sha, After(sha, begun), run, c, batch, order, uuids, clock, |order|) && begun <= run
    ensures MessagesOf(After(sha, run).log, c) == Prefix(order, |order|)
  {
    NothingDone(sha, After(sha, begun).history, batch, order, uuids, clock);
    run := RoundsRun(sha, begun, c, batch, order, uuids, clock, |order|);
    AllMessagesAreLogged(sha, run, c, batch, order);
  }

  /** A call whose check passes on version seen, and whose batch is still stored, can go through without a
      disturbance: the batch is marked, every target has its notification, with the ids that were drawn,
      every message is in the log, in order, and no other call has made progress. */
  lemma CallCompletes(
    sha: Sha512, actions: seq<Action>, c: CallId, user: Uuid, batch: Uuid, seen: nat, order: seq<Delivery>,
    uuids: nat -> Uuid, clock: nat -> int)
    returns (run: seq<Action>)
    requires Run(sha, actions) && c !in After(sha, actions).calls && seen <= |After(sha, actions).history|
    requires BatchPending(Version(sha, After(sha, actions).history, seen), user, batch)
    requires batch in Exec(sha, After(sha, actions).history).batches
    requires Enumerates(order, Targets(Exec(sha, After(sha, actions).history), user))
    requires FreshDraws(After(sha, actions).history, uuids, |order|)
    ensures Run(sha, run) && actions <= run
    ensures Progress(MarkSent(Exec(sha, After(sha, actions).history), user, batch), Exec(sha, After(sha, run).history),
                     batch, SendRun(order, FirstDraws(uuids, |order|), |order|), uuids, clock)
    ensures MessagesOf(After(sha, run).log, c) == Prefix(order, |order|)
    ensures SameElsewhere(After(sha, actions), After(sha, run), c)
  {
    var h := After(sha, actions).history;
    OpeningRuns(sha, actions, c, user, batch, seen, order);
    MarkDrawsNothing(sha, h, user, batch, uuids, |order|);
    TargetKeysExist(Exec(sha, h), user, batch, order);
    var begun := Opening(actions, c, user, batch, seen, |h|, order);
    run := LoopCompletes(sha, begun, c, batch, order, uuids, clock);
    SameThroughout(After(sha, actions), After(sha, begun), After(sha, run), c);
    OpeningExtends(actions, c, user, batch, seen, |h|, order);
  }

  lemma SameThroughout(s: Sys, t: Sys, u: Sys, c: CallId)
    requires SameElsewhere(s, t, c) && SameElsewhere(t, u, c)
    ensures SameElsewhere(s, u, c)
  {
  }

  lemma OpeningExtends(
    actions: seq<Action>, c: CallId, user: Uuid, batch: Uuid, seen: nat, now: nat, order: seq<Delivery>)
    ensures actions <= Opening(actions, c, user, batch, seen, now, order)
  {
  }

  /** Whenever a batch is pending, a call on current data can go through without a disturbance, and it then
      ends in the state that the sequential SendBatch promises. */
  lemma UndisturbedCallCompletes(
    sha: Sha512, actions: seq<Action>, c: CallId, user: Uuid, batch: Uuid, order: seq<Delivery>,
    uuids: nat -> Uuid, clock: nat -> int)
    returns (run: seq<Action>)
    requires Run(sha, actions) && c !in After(sha, actions).calls
    requires BatchPending(Exec(sha, After(sha, actions).history), user, batch)
    requires Enumerates(order, Targets(Exec(sha, After(sha, actions).history), user))
    requires FreshDraws(After(sha, actions).history, uuids, |order|)
    ensures Run(sha, run) && actions <= run
    ensures Progress(MarkSent(Exec(sha, After(sha, actions).history), user, batch), Exec(sha, After(sha, run).history),
                     batch, SendRun(order, FirstDraws(uuids, |order|), |order|), uuids, clock)
    ensures MessagesOf(After(sha, run).log, c) == Prefix(order, |order|)
  {
    LastVersion(sha, After(sha, actions).history);
    run := CallCompletes(
      sha, actions, c, user, batch, |After(sha, actions).history|, order, uuids, clock);
  }

  /** However long ago call b has finished: a later call that checks the version that b checked gets in as
      well, and delivers to every target again. */
  lemma LateStaleCallSends(
    sha: Sha512, actions: seq<Action>, b: CallId, c: CallId, order: seq<Delivery>,
    uuids: nat -> Uuid, clock: nat -> int)
    returns (run: seq<Action>)
    requires Run(sha, actions) && b in After(sha, actions).calls && c !in After(sha, actions).calls
    requires After(sha, actions).calls[b].batch in Exec(sha, After(sha, actions).history).batches
    requires Enumerates(order, Targets(Exec(sha, After(sha, actions).history), After(sha, actions).calls[b].user))
    requires FreshDraws(After(sha, actions).history, uuids, |order|)
    ensures Run(sha, run) && actions <= run
    ensures var call := After(sha, actions).calls[b];
      Progress(MarkSent(Exec(sha, After(sha, actions).history), call.user, call.batch),
               Exec(sha, After(sha, run).history),
               call.batch, SendRun(order, FirstDraws(uuids, |order|), |order|), uuids, clock)
    ensures MessagesOf(After(sha, run).log, c) == Prefix(order, |order|)
    ensures MessagesOf(After(sha, run).log, b) == MessagesOf(After(sha, actions).log, b)
  {
    var s := After(sha, actions);
    EveryRunKeepsInv(sha, actions);
    assert CallInv(sha, s.history, s.calls[b]);
    run := CallCompletes(
      sha, actions, c, s.calls[b].user, s.calls[b].batch, s.calls[b].checkedAt, order, uuids, clock);
  }

  lemma MarkDrawsNothing(sha: Sha512, h: seq<Tx>, user: Uuid, batch: Uuid, uuids: nat -> Uuid, n: nat)
    requires FreshDraws(h, uuids, n)
    ensures FreshDraws(h + [OnNotification(MarkSentTx(user, batch))], uuids, n)
    ensures Exec(sha, h + [OnNotification(MarkSentTx(user, batch))]) == MarkSent(Exec(sha, h), user, batch)
  {
    var tx := OnNotification(MarkSentTx(user, batch));
    assert (h + [tx])[..|h|] == h && (h + [tx])[|h|] == tx;
    VersionAfterMark(sha, h, user, batch);
  }

  lemma AllMessagesAreLogged(sha: Sha512, run: seq<Action>, c: CallId, batch: Uuid, order: seq<Delivery>)
    requires Run(sha, run) && InRound(After(sha, run), c, batch, order, |order|)
    ensures MessagesOf(After(sha, run).log, c) == Prefix(order, |order|)
  {
    EveryRunKeepsInv(sha, run);
    assert Logged(After(sha, run).log, c, After(sha, run).calls[c]);
  }

  lemma TargetKeysExist(db: Db, user: Uuid, batch: Uuid, order: seq<Delivery>)
    requires batch in db.batches && Enumerates(order, Targets(db, user))
    ensures forall i :: 0 <= i < |order| ==> KeysExist(MarkSent(db, user, batch), batch, order[i])
  {
    forall i | 0 <= i < |order|
      ensures KeysExist(db, batch, order[i])
    {
      assert order[i] in order && order[i] in Targets(db, user);
    }
  }
}
