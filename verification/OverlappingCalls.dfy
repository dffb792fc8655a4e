/** Two overlapping calls of SendBatch for one batch both deliver to every target. */
module OverlappingCalls {
  import opened Prelude
  import opened Tables
  import opened Requests
  import opened History
  import opened Outreach
  import opened NotificationManagement
  import opened Protocol
  import opened DoubleEntry
  import opened UndisturbedCall

  /** The draws of the two calls differ. */
  ghost predicate Apart(uuids: nat -> Uuid, others: nat -> Uuid, n: nat) {
    forall i, j :: 0 <= i < n && 0 <= j < n ==> uuids(i) != others(j)
  }

  lemma MarkedTwice(sha: Sha512, h: seq<Tx>, user: Uuid, batch: Uuid)
    ensures var tx := OnNotification(MarkSentTx(user, batch));
      && Exec(sha, h + [tx] + [tx]) == MarkSent(Exec(sha, h), user, batch)
      && Registry(h + [tx] + [tx]) == Registry(h)
  {
    var tx := OnNotification(MarkSentTx(user, batch));
    VersionAfterMark(sha, h, user, batch);
    VersionAfterMark(sha, h + [tx], user, batch);
    assert (h + [tx])[..|h|] == h && (h + [tx])[|h|] == tx;
    assert (h + [tx] + [tx])[..|h| + 1] == h + [tx] && (h + [tx] + [tx])[|h| + 1] == tx;
  }

  lemma StillFresh(
    sha: Sha512, start: seq<Tx>, h: seq<Tx>, batch: Uuid, order: seq<Delivery>,
    uuids: nat -> Uuid, others: nat -> Uuid, clock: nat -> int)
    requires RoundsDone(sha, start, h, batch, order, uuids, clock, |order|)
    requires FreshDraws(start, others, |order|) && Apart(uuids, others, |order|)
    ensures FreshDraws(h, others, |order|)
  {
  }

  lemma KeysStillExist(
    sha: Sha512, start: seq<Tx>, h: seq<Tx>, batch: Uuid, order: seq<Delivery>,
    uuids: nat -> Uuid, clock: nat -> int)
    requires RoundsDone(sha, start, h, batch, order, uuids, clock, |order|)
    requires forall i :: 0 <= i < |order| ==> KeysExist(Exec(sha, start), batch, order[i])
    ensures forall i :: 0 <= i < |order| ==> KeysExist(Exec(sha, h), batch, order[i])
  {
  }

  /** The notifications of two loops: two for each delivery. */
  ghost predicate Twice(
    before: map<Uuid, NotificationRow>, after: map<Uuid, NotificationRow>, batch: Uuid, order: seq<Delivery>,
    uuids: nat -> Uuid, others: nat -> Uuid, clock: nat -> int)
  {
    && (forall i :: i in after <==>
          i in before || i in FirstDraws(uuids, |order|) || i in FirstDraws(others, |order|))
    && (forall i :: i in before ==> after[i] == before[i])
    && forall n :: 0 <= n < |order| ==>
         var row := TelegramNotification(clock(n), batch, order[n].recipient, order[n].group);
         && uuids(n) != others(n)
         && uuids(n) in after && others(n) in after && after[uuids(n)] == row == after[others(n)]
  }

  /** Two notifications for each delivery have been added, and nothing else has changed. */
  ghost predicate TwiceIn(
    before: Db, after: Db, batch: Uuid, order: seq<Delivery>, uuids: nat -> Uuid, others: nat -> Uuid,
    clock: nat -> int)
  {
    && after == before.(notifications := after.notifications)
    && Twice(before.notifications, after.notifications, batch, order, uuids, others, clock)
  }

  lemma TwoLoopsAddTwice(
    before: Db, between: Db, after: Db, batch: Uuid, order: seq<Delivery>,
    uuids: nat -> Uuid, others: nat -> Uuid, clock: nat -> int)
    requires Progress(before, between, batch, SendRun(order, FirstDraws(uuids, |order|), |order|), uuids, clock)
    requires Progress(between, after, batch, SendRun(order, FirstDraws(others, |order|), |order|), others, clock)
    requires Apart(uuids, others, |order|)
    ensures TwiceIn(before, after, batch, order, uuids, others, clock)
  {
    forall n | 0 <= n < |order|
      ensures var row := TelegramNotification(clock(n), batch, order[n].recipient, order[n].group);
        && uuids(n) != others(n)
        && uuids(n) in after.notifications && others(n) in after.notifications
        && after.notifications[uuids(n)] == row == after.notifications[others(n)]
    {
      assert FirstDraws(uuids, |order|)[n] == uuids(n) && FirstDraws(others, |order|)[n] == others(n);
      assert uuids(n) in FirstDraws(uuids, |order|) && others(n) in FirstDraws(others, |order|);
    }
  }

  /** Both loops run to their end, one after the other. */
  lemma BothLoopsComplete(
    sha: Sha512, begun: seq<Action>, b: CallId, c: CallId, batch: Uuid, order: seq<Delivery>,
    uuids: nat -> Uuid, others: nat -> Uuid, clock: nat -> int)
    returns (run: seq<Action>)
    requires Run(sha, begun) && b != c
    requires InRound(After(sha, begun), b, batch, order, 0) && InRound(After(sha, begun), c, batch, order, 0)
    requires FreshDraws(After(sha, begun).history, uuids, |order|)
    requires FreshDraws(After(sha, begun).history, others, |order|) && Apart(uuids, others, |order|)
    requires forall i :: 0 <= i < |order| ==> KeysExist(Exec(sha, After(sha, begun).history), batch, order[i])
    ensures Run(sha, run) && begun <= run
    ensures MessagesOf(After(sha, run).log, b) == Prefix(order, |order|)
    ensures MessagesOf(After(sha, run).log, c) == Prefix(order, |order|)
    ensures TwiceIn(Exec(sha, After(sha, begun).history), Exec(sha, After(sha, run).history),
                    batch, order, uuids, others, clock)
  {
    var start := After(sha, begun).history;
    var first := LoopCompletes(sha, begun, b, batch, order, uuids, clock);
    StillFresh(sha, start, After(sha, first).history, batch, order, uuids, others, clock);
    KeysStillExist(sha, start, After(sha, first).history, batch, order, uuids, clock);
    run := LoopCompletes(sha, first, c, batch, order, others, clock);
    TwoLoopsAddTwice(Exec(sha, start), Exec(sha, After(sha, first).history), Exec(sha, After(sha, run).history),
                     batch, order, uuids, others, clock);
  }

  /** Whenever a batch is pending, two overlapping calls can both go through: every target is notified
      twice and gets two messages. */
  lemma OverlappingCallsBothSend(
    sha: Sha512, actions: seq<Action>, user: Uuid, batch: Uuid, b: CallId, c: CallId, order: seq<Delivery>,
    uuids: nat -> Uuid, others: nat -> Uuid, clock: nat -> int)
    returns (run: seq<Action>)
    requires Run(sha, actions)
    requires BatchPending(Exec(sha, After(sha, actions).history), user, batch)
    requires b !in After(sha, actions).calls && c !in After(sha, actions).calls && b != c
    requires Enumerates(order, Targets(Exec(sha, After(sha, actions).history), user))
    requires FreshDraws(After(sha, actions).history, uuids, |order|)
    requires FreshDraws(After(sha, actions).history, others, |order|) && Apart(uuids, others, |order|)
    ensures Run(sha, run) && actions <= run
    ensures MessagesOf(After(sha, run).log, b) == Prefix(order, |order|)
    ensures MessagesOf(After(sha, run).log, c) == Prefix(order, |order|)
    ensures TwiceIn(MarkSent(Exec(sha, After(sha, actions).history), user, batch), Exec(sha, After(sha, run).history),
                    batch, order, uuids, others, clock)
  {
    var h := After(sha, actions).history;
    var begun := WithOverlap(actions, user, batch, b, c, |h|, order);
    OverlappingCallsBothEnter(sha, actions, user, batch, b, c, order);
    OverlapExtends(actions, user, batch, b, c, |h|, order);
    MarkedTwice(sha, h, user, batch);
    DrawsStayFresh(h, After(sha, begun).history, uuids, |order|);
    DrawsStayFresh(h, After(sha, begun).history, others, |order|);
    TargetKeysExist(Exec(sha, h), user, batch, order);
    run := BothLoopsComplete(sha, begun, b, c, batch, order, uuids, others, clock);
  }

  lemma OverlapExtends(
    actions: seq<Action>, user: Uuid, batch: Uuid, b: CallId, c: CallId, now: nat, order: seq<Delivery>)
    ensures actions <= WithOverlap(actions, user, batch, b, c, now, order)
  {
  }

  lemma DrawsStayFresh(h: seq<Tx>, longer: seq<Tx>, uuids: nat -> Uuid, n: nat)
    requires FreshDraws(h, uuids, n) && Registry(longer) == Registry(h)
    ensures FreshDraws(longer, uuids, n)
  {
  }
}
