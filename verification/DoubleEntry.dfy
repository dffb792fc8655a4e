/** The update of SendBatch does not test the sent flag again, so two overlapping calls both enter the loop. */
module DoubleEntry {
  import opened Prelude
  import opened Tables
  import opened Requests
  import opened History
  import opened Identity
  import opened Outreach
  import opened Protocol
  import opened ProtocolSafety
  import opened Runs

  /** The call has delivered the first n entries of its order. */
  ghost predicate InRound(s: Sys, c: CallId, batch: Uuid, order: seq<Delivery>, n: nat) {
    && Active(s, c) && s.calls[c].batch == batch
    && s.calls[c].phase.Looping? && s.calls[c].phase.pending == order
    && |s.calls[c].phase.created| == n == s.calls[c].phase.sent
  }

  lemma VersionAfterMark(sha: Sha512, h: seq<Tx>, user: Uuid, batch: Uuid)
    ensures Exec(sha, h + [OnNotification(MarkSentTx(user, batch))]) == MarkSent(Exec(sha, h), user, batch)
  {
    var longer := h + [OnNotification(MarkSentTx(user, batch))];
    assert longer[..|h|] == h;
  }

  /** A run continued by two calls that check, and then update, and then read, all on current data. */
  function WithOverlap(
    actions: seq<Action>, user: Uuid, batch: Uuid, b: CallId, c: CallId, now: nat, pending: seq<Delivery>): seq<Action>
  {
    actions + [Start(b, user, batch, now)] + [Start(c, user, batch, now)] + [Mark(b)] + [Mark(c)]
    + [Read(b, now + 2, pending)] + [Read(c, now + 2, pending)]
  }

  /** Whenever a batch is pending, two overlapping calls both enter the loop, each with every target. */
  lemma OverlappingCallsBothEnter(
    sha: Sha512, actions: seq<Action>, user: Uuid, batch: Uuid, b: CallId, c: CallId, pending: seq<Delivery>)
    requires Run(sha, actions)
    requires BatchPending(Exec(sha, After(sha, actions).history), user, batch)
    requires b !in After(sha, actions).calls && c !in After(sha, actions).calls && b != c
    requires Enumerates(pending, Targets(Exec(sha, After(sha, actions).history), user))
    ensures var run := WithOverlap(actions, user, batch, b, c, |After(sha, actions).history|, pending);
      && Run(sha, run)
      && InRound(After(sha, run), b, batch, pending, 0) && InRound(After(sha, run), c, batch, pending, 0)
      && After(sha, run).history == After(sha, actions).history
           + [OnNotification(MarkSentTx(user, batch))] + [OnNotification(MarkSentTx(user, batch))]
  {
    var h := After(sha, actions).history;
    var marked := actions + [Start(b, user, batch, |h|)] + [Start(c, user, batch, |h|)] + [Mark(b)] + [Mark(c)];
    BothUpdate(sha, actions, user, batch, b, c);
    OrderAfterMarks(sha, h, After(sha, marked).history, user, batch, pending);
    BothRead(sha, marked, user, batch, b, c, |h| + 2, pending);
  }

  lemma BothUpdate(sha: Sha512, actions: seq<Action>, user: Uuid, batch: Uuid, b: CallId, c: CallId)
    requires Run(sha, actions) && b != c
    requires BatchPending(Exec(sha, After(sha, actions).history), user, batch)
    requires b !in After(sha, actions).calls && c !in After(sha, actions).calls
    ensures var h := After(sha, actions).history;
      var marked := actions + [Start(b, user, batch, |h|)] + [Start(c, user, batch, |h|)] + [Mark(b)] + [Mark(c)];
      && Run(sha, marked)
      && var t := After(sha, marked);
      && t.history == h + [OnNotification(MarkSentTx(user, batch))] + [OnNotification(MarkSentTx(user, batch))]
      && HasMarked(t, b, user, batch) && HasMarked(t, c, user, batch)
  {
    var now := |After(sha, actions).history|;
    BothStart(sha, actions, user, batch, b, c);
    BothMark(sha, actions + [Start(b, user, batch, now)] + [Start(c, user, batch, now)], b, c);
  }

  lemma BothStart(sha: Sha512, actions: seq<Action>, user: Uuid, batch: Uuid, b: CallId, c: CallId)
    requires Run(sha, actions) && b != c
    requires BatchPending(Exec(sha, After(sha, actions).history), user, batch)
    requires b !in After(sha, actions).calls && c !in After(sha, actions).calls
    ensures var now := |After(sha, actions).history|;
      var started := actions + [Start(b, user, batch, now)] + [Start(c, user, batch, now)];
      && Run(sha, started)
      && After(sha, started).history == After(sha, actions).history
      && Active(After(sha, started), b) && Active(After(sha, started), c)
      && After(sha, started).calls[b] == Call(user, batch, now, Checked, true) == After(sha, started).calls[c]
  {
    var now := |After(sha, actions).history|;
    LastVersion(sha, After(sha, actions).history);
    RunStep(sha, actions, Start(b, user, batch, now));
    RunStep(sha, actions + [Start(b, user, batch, now)], Start(c, user, batch, now));
  }

  /** The call has been through its update. */
  predicate HasMarked(s: Sys, c: CallId, user: Uuid, batch: Uuid) {
    Active(s, c) && s.calls[c].phase.Marked? && s.calls[c].user == user && s.calls[c].batch == batch
  }

  lemma BothRead(
    sha: Sha512, marked: seq<Action>, user: Uuid, batch: Uuid, b: CallId, c: CallId, seen: nat, pending: seq<Delivery>)
    requires Run(sha, marked) && b != c && seen <= |After(sha, marked).history|
    requires HasMarked(After(sha, marked), b, user, batch) && HasMarked(After(sha, marked), c, user, batch)
    requires Enumerates(pending, Targets(Version(sha, After(sha, marked).history, seen), user))
    ensures var read := marked + [Read(b, seen, pending)] + [Read(c, seen, pending)];
      && Run(sha, read)
      && InRound(After(sha, read), b, batch, pending, 0) && InRound(After(sha, read), c, batch, pending, 0)
      && After(sha, read).history == After(sha, marked).history
  {
    RunStep(sha, marked, Read(b, seen, pending));
    RunStep(sha, marked + [Read(b, seen, pending)], Read(c, seen, pending));
  }

  lemma BothMark(sha: Sha512, started: seq<Action>, b: CallId, c: CallId)
    requires Run(sha, started) && b != c
    requires Active(After(sha, started), b) && After(sha, started).calls[b].phase.Checked?
    requires Active(After(sha, started), c) && After(sha, started).calls[c].phase.Checked?
    ensures var marked := started + [Mark(b)] + [Mark(c)];
      && Run(sha, marked)
      && var s, t := After(sha, started), After(sha, marked);
      && t.history == s.history + [MarkOf(s.calls[b])] + [MarkOf(s.calls[c])]
      && t.calls == s.calls[b := s.calls[b].(phase := Marked(|s.history|))]
                           [c := s.calls[c].(phase := Marked(|s.history| + 1))]
  {
    RunStep(sha, started, Mark(b));
    RunStep(sha, started + [Mark(b)], Mark(c));
  }

  lemma MarkKeepsTargets(sha: Sha512, h: seq<Tx>, user: Uuid, batch: Uuid)
    ensures Targets(Exec(sha, h + [OnNotification(MarkSentTx(user, batch))]), user) == Targets(Exec(sha, h), user)
  {
    VersionAfterMark(sha, h, user, batch);
    TargetsIgnoreBatches(Exec(sha, h), MarkSent(Exec(sha, h), user, batch), user);
  }

  /** The updates change no target, so the queries that follow them give the targets of before. */
  lemma OrderAfterMarks(
    sha: Sha512, h: seq<Tx>, longer: seq<Tx>, user: Uuid, batch: Uuid, order: seq<Delivery>)
    requires longer == h + [OnNotification(MarkSentTx(user, batch))] + [OnNotification(MarkSentTx(user, batch))]
    requires Enumerates(order, Targets(Exec(sha, h), user))
    ensures Enumerates(order, Targets(Version(sha, longer, |h| + 2), user))
  {
    LastVersion(sha, longer);
    MarkKeepsTargets(sha, h, user, batch);
    MarkKeepsTargets(sha, h + [OnNotification(MarkSentTx(user, batch))], user, batch);
  }
}
