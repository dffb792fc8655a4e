/** What the interleaved protocol guarantees over every run, and where it falls short. */
module ProtocolTheorems {
  import opened Prelude
  import opened Tables
  import opened Deletions
  import opened Requests
  import opened History
  import opened SchemaIntegrity
  import opened Identity
  import opened Coherence
  import opened Outreach
  import opened Subscriptions
  import opened Protocol
  import opened ProtocolSafety
  import opened Runs

  /** In every version of every run the constraints hold, no membership and no notification crosses
      tenants, every notification has its batch, and that batch is marked sent. */
  lemma EveryVersionIsCoherent(sha: Sha512, actions: seq<Action>, k: nat)
    requires Run(sha, actions) && k <= |After(sha, actions).history|
    ensures Integrity(Version(sha, After(sha, actions).history, k))
    ensures Coherent(Version(sha, After(sha, actions).history, k))
  {
    EveryRunKeepsInv(sha, actions);
    EveryStateHasIntegrity(sha, After(sha, actions).history[..k]);
  }

  /** In every version of every run a stored notification has its batch, marked sent, and the join with
      the batches lists it for exactly one user: the owner of its batch, its recipient and its group. */
  lemma EveryNotificationHasItsReader(sha: Sha512, actions: seq<Action>, k: nat, i: Uuid, user: Uuid)
    requires Run(sha, actions) && k <= |After(sha, actions).history|
    requires i in Version(sha, After(sha, actions).history, k).notifications
    ensures var db := Version(sha, After(sha, actions).history, k);
      var row := db.notifications[i];
      && row.batch.Some? && row.batch.value in db.batches && db.batches[row.batch.value].sent
      && row.recipient in db.recipients && row.group in db.groups
      && db.recipients[row.recipient].master == db.groups[row.group].master == db.batches[row.batch.value].master
      && (i in ListAll(db, user) <==> user == db.batches[row.batch.value].master)
  {
    var db := Version(sha, After(sha, actions).history, k);
    EveryVersionIsCoherent(sha, actions, k);
    assert Grounded(db.notifications[i], db.recipients, db.groups, db.batches);
    EachNotificationHasOneReader(db, i, user);
  }

  /** In every version of every run, deleting a user removes that tenant, and nothing more. */
  lemma DeletingAUserRemovesOneTenant(sha: Sha512, actions: seq<Action>, k: nat, user: Uuid)
    requires Run(sha, actions) && k <= |After(sha, actions).history|
    requires user in Version(sha, After(sha, actions).history, k).users
    ensures var db := Version(sha, After(sha, actions).history, k);
      DeleteUser(db, user) == Outcome(WithoutUser(db, user), Ok(Done))
  {
    EveryVersionIsCoherent(sha, actions, k);
    DeletingAUser(Version(sha, After(sha, actions).history, k), user);
  }

  /** Every message goes to a chat whose latest applied command, before the version that its call of
      SendBatch read, was /send_notifications. */
  lemma EveryMessageHasConsent(sha: Sha512, actions: seq<Action>, i: nat)
    requires Run(sha, actions) && i < |After(sha, actions).log|
    ensures var s := After(sha, actions);
      && s.log[i].readAt <= |s.history|
      && LastApplied(sha, s.history[..s.log[i].readAt], s.log[i].message.chat) == Some(SendNotifications)
  {
    var s := After(sha, actions);
    EveryRunKeepsInv(sha, actions);
    assert Consented(sha, s.history, s.log[i]);
    ContactIsLastApplied(sha, s.history[..s.log[i].readAt], s.log[i].message.chat);
  }

  // ----- What every message says -----

  /** Every message belongs to a call in its loop, and was read where that call has read. */
  ghost predicate EntriesAgree(s: Sys) {
    forall i :: 0 <= i < |s.log| ==>
      && s.log[i].call in s.calls && s.calls[s.log[i].call].phase.Looping?
      && s.log[i].readAt == s.calls[s.log[i].call].phase.readAt
  }

  lemma ActionKeepsEntries(sha: Sha512, s: Sys, a: Action)
    requires EntriesAgree(s) && Enabled(sha, s, a)
    ensures EntriesAgree(Do(sha, s, a))
  {
  }

  lemma {:induction false} EveryRunKeepsEntries(sha: Sha512, actions: seq<Action>)
    requires Run(sha, actions)
    ensures EntriesAgree(After(sha, actions))
    decreases |actions|
  {
    if actions != [] {
      var before := actions[..|actions| - 1];
      EveryRunKeepsEntries(sha, before);
      ActionKeepsEntries(sha, After(sha, before), actions[|actions| - 1]);
    }
  }

  lemma {:induction false} EntryIsAMessage(log: seq<LogEntry>, i: nat) returns (n: nat)
    requires i < |log|
    ensures n < |MessagesOf(log, log[i].call)| && MessagesOf(log, log[i].call)[n] == log[i].message
    decreases |log|
  {
    if i == |log| - 1 {
      n := |MessagesOf(log[..i], log[i].call)|;
    } else {
      n := EntryIsAMessage(log[..|log| - 1], i);
    }
  }

  /** Every message goes through a membership of the caller's, to the chat of its recipient, with the text
      of the template of its group, all as in the version that its call has read. */
  lemma EveryMessageIsPromised(sha: Sha512, actions: seq<Action>, i: nat) returns (m: Membership, text: string)
    requires Run(sha, actions) && i < |After(sha, actions).log|
    ensures var s := After(sha, actions);
      var e := s.log[i];
      && e.call in s.calls && e.readAt <= |s.history|
      && Promised(Version(sha, s.history, e.readAt), s.calls[e.call].user, m, e.message.chat, text)
      && e.message == Message(e.message.chat, TemplateText(text))
  {
    var s := After(sha, actions);
    var e := s.log[i];
    EveryRunKeepsEntries(sha, actions);
    EveryRunKeepsInv(sha, actions);
    var call := s.calls[e.call];
    assert CallInv(sha, s.history, call) && Logged(s.log, e.call, call);
    var n := EntryIsAMessage(s.log, i);
    var d := call.phase.pending[n];
    assert d in call.phase.pending;
    TargetIsPromised(Version(sha, s.history, e.readAt), call.user, d);
    m, text := Membership(d.recipient, d.group), d.text;
  }

  lemma CreatedIdsDiffer(sha: Sha512, h: seq<Tx>, call: Call, i: nat, j: nat)
    requires Fresh(h) && call.phase.Looping? && InStep(sha, h, call) && i < j < |call.phase.created|
    ensures call.phase.created[i].id != call.phase.created[j].id
  {
    var a, b := call.phase.created[i], call.phase.created[j];
    assert CommittedFor(sha, h, call, call.phase.pending[i], a);
    assert CommittedFor(sha, h, call, call.phase.pending[j], b);
    DrawnIsKnown(h, a.at);
    RegistryExtends(h, a.at + 1, b.at);
  }

  /** Wherever a call of SendBatch stops, its messages are a prefix of its deliveries, in order, and its
      committed notifications are that prefix or one more; their ids are distinct. The deliveries are
      those promised by the version it read. */
  lemma MessagesFollowNotifications(sha: Sha512, actions: seq<Action>, c: CallId)
    requires Run(sha, actions) && c in After(sha, actions).calls
    requires After(sha, actions).calls[c].phase.Looping?
    ensures var s := After(sha, actions);
      var call := s.calls[c];
      var p := call.phase;
      && p.readAt <= |s.history|
      && Enumerates(p.pending, Targets(Version(sha, s.history, p.readAt), call.user))
      && p.sent <= |p.created| <= p.sent + 1 && |p.created| <= |p.pending|
      && |MessagesOf(s.log, c)| == p.sent
      && (forall n :: 0 <= n < p.sent ==>
            MessagesOf(s.log, c)[n] == Message(p.pending[n].chat, TemplateText(p.pending[n].text)))
      && (forall i :: 0 <= i < |p.created| ==> CommittedFor(sha, s.history, call, p.pending[i], p.created[i]))
      && (forall i, j :: 0 <= i < j < |p.created| ==> p.created[i].id != p.created[j].id)
  {
    var s := After(sha, actions);
    var call := s.calls[c];
    EveryRunKeepsInv(sha, actions);
    assert CallInv(sha, s.history, call) && Logged(s.log, c, call);
    forall i, j | 0 <= i < j < |call.phase.created|
      ensures call.phase.created[i].id != call.phase.created[j].id
    {
      CreatedIdsDiffer(sha, s.history, call, i, j);
    }
  }

  lemma CreationSucceedsExactly(sha: Sha512, db: Db, call: Call, d: Delivery, id: Uuid, timestamp: int)
    ensures Apply(sha, db, CreationOf(call, d, id, timestamp)).reply.Ok? <==>
      id !in db.notifications && call.batch in db.batches && d.recipient in db.recipients && d.group in db.groups
  {
    assert Apply(sha, db, CreationOf(call, d, id, timestamp))
        == CreateNotification(db, id, Telegram, timestamp, call.batch, d.recipient, d.group);
  }

  /** In every run, an insertion of the loop ends its call exactly if the batch, the recipient or the group
      is not stored any more. */
  lemma InsertionEndsItsCallExactly(sha: Sha512, actions: seq<Action>, c: CallId, id: Uuid, timestamp: int)
    requires Run(sha, actions) && Enabled(sha, After(sha, actions), Create(c, id, timestamp))
    ensures var s := After(sha, actions);
      var call := s.calls[c];
      var d := call.phase.pending[call.phase.sent];
      var db := Exec(sha, s.history);
      !Do(sha, s, Create(c, id, timestamp)).calls[c].alive <==>
        call.batch !in db.batches || d.recipient !in db.recipients || d.group !in db.groups
  {
    var s := After(sha, actions);
    NotStoredYet(sha, actions, id);
    CreationSucceedsExactly(
      sha, Exec(sha, s.history), s.calls[c], s.calls[c].phase.pending[s.calls[c].phase.sent], id, timestamp);
  }

  /** A call that has not read its rows has sent nothing. */
  lemma NoMessageBeforeTheQuery(sha: Sha512, actions: seq<Action>, c: CallId)
    requires Run(sha, actions)
    requires c in After(sha, actions).calls ==> !After(sha, actions).calls[c].phase.Looping?
    ensures MessagesOf(After(sha, actions).log, c) == []
  {
    EveryRunKeepsInv(sha, actions);
    if c in After(sha, actions).calls {
      assert Logged(After(sha, actions).log, c, After(sha, actions).calls[c]);
    }
  }

  // ----- The sent flag -----

  lemma SentInNextVersion(sha: Sha512, h: seq<Tx>, j: nat, k: nat, user: Uuid, batch: Uuid)
    requires Fresh(h) && j <= k < |h|
    requires batch in Version(sha, h, j).batches
    requires batch in Version(sha, h, k).batches ==> SentBy(Version(sha, h, k), user, batch)
    ensures batch in Version(sha, h, k + 1).batches ==> SentBy(Version(sha, h, k + 1), user, batch)
  {
    if batch in Version(sha, h, k + 1).batches {
      EveryVersionIsRegistered(sha, h, j);
      RegisteredRow(Registry(h[..j]), Version(sha, h, j), Batches, batch);
      if batch !in Ids(Version(sha, h, k), Batches) {
        NoReturnInOneStep(sha, h, j, k, Batches, batch);
      }
      VersionStep(sha, h, k);
      SentStaysInOneStep(sha, Version(sha, h, k), h[k], user, batch);
    }
  }

  /** Once a batch is marked sent it is marked sent in every later version that stores it. */
  lemma {:induction false} SentNeverGoesBack(sha: Sha512, h: seq<Tx>, j: nat, k: nat, user: Uuid, batch: Uuid)
    requires Fresh(h) && j <= k <= |h|
    requires SentBy(Version(sha, h, j), user, batch)
    ensures batch in Version(sha, h, k).batches ==> SentBy(Version(sha, h, k), user, batch)
    decreases k
  {
    if j < k {
      SentNeverGoesBack(sha, h, j, k - 1, user, batch);
      SentInNextVersion(sha, h, j, k - 1, user, batch);
    }
  }

  /** Two calls that both got past the check and the update of one batch overlap in the versions they saw:
      each made its check on a version not newer than the update of the other. Calls that read current data
      and do not overlap in time therefore enter the loop at most once for each batch. */
  lemma DoubleEntryMeansOverlap(sha: Sha512, actions: seq<Action>, b: CallId, c: CallId)
    requires Run(sha, actions) && b in After(sha, actions).calls && c in After(sha, actions).calls
    requires After(sha, actions).calls[b].batch == After(sha, actions).calls[c].batch
    requires !After(sha, actions).calls[b].phase.Checked?
    ensures After(sha, actions).calls[c].checkedAt <= After(sha, actions).calls[b].phase.markedAt
  {
    var s := After(sha, actions);
    EveryRunKeepsInv(sha, actions);
    assert CallInv(sha, s.history, s.calls[b]);
    assert CallInv(sha, s.history, s.calls[c]);
    if s.calls[c].checkedAt > s.calls[b].phase.markedAt {
      MarkedIsSent(sha, s.history, s.calls[b], s.calls[c].checkedAt);
    }
  }
}
