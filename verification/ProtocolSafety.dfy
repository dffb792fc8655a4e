/** Every reachable state of the interleaved protocol satisfies the invariant. */
module ProtocolSafety {
  import opened Prelude
  import opened Tables
  import opened Requests
  import opened History
  import opened Footprints
  import opened Identity
  import opened Coherence
  import opened Outreach
  import opened Protocol

  // ----- A longer history keeps its earlier versions -----

  lemma LongerVersions(sha: Sha512, h: seq<Tx>, tx: Tx, k: nat)
    requires k <= |h|
    ensures Version(sha, h + [tx], k) == Version(sha, h, k)
    ensures (h + [tx])[..k] == h[..k]
  {
    assert (h + [tx])[..k] == h[..k];
  }

  lemma LastVersion(sha: Sha512, h: seq<Tx>)
    ensures Version(sha, h, |h|) == Exec(sha, h)
  {
    assert h[..|h|] == h;
  }

  lemma FreshStays(h: seq<Tx>, tx: Tx)
    requires Fresh(h) && DrawsFresh(h, tx)
    ensures Fresh(h + [tx])
  {
    var longer := h + [tx];
    forall i | 0 <= i < |longer| && Draw(longer[i]).Some?
      ensures Draw(longer[i]).value.id !in Registry(longer[..i])
    {
      assert longer[..i] == h[..i];
      if i == |h| { assert longer[..i] == h; }
    }
  }

  lemma CallStays(sha: Sha512, h: seq<Tx>, tx: Tx, call: Call)
    requires CallInv(sha, h, call)
    ensures CallInv(sha, h + [tx], call)
  {
    LongerVersions(sha, h, tx, call.checkedAt);
    if call.phase.Looping? {
      LongerVersions(sha, h, tx, call.phase.readAt);
      forall i | 0 <= i < |call.phase.created|
        ensures CommittedFor(sha, h + [tx], call, call.phase.pending[i], call.phase.created[i])
      {
        CommittedStays(sha, h, tx, call, call.phase.pending[i], call.phase.created[i]);
      }
    }
  }

  lemma CommittedStays(sha: Sha512, h: seq<Tx>, tx: Tx, call: Call, d: Delivery, created: Created)
    requires CommittedFor(sha, h, call, d, created)
    ensures CommittedFor(sha, h + [tx], call, d, created)
  {
    LongerVersions(sha, h, tx, created.at);
    assert (h + [tx])[created.at] == h[created.at];
  }

  lemma ConsentStays(sha: Sha512, h: seq<Tx>, tx: Tx, e: LogEntry)
    requires Consented(sha, h, e)
    ensures Consented(sha, h + [tx], e)
  {
    LongerVersions(sha, h, tx, e.readAt);
  }

  lemma CoherenceStays(sha: Sha512, h: seq<Tx>, tx: Tx)
    requires CoherentVersions(sha, h)
    requires tx.OnNotification? ==> Justified(Exec(sha, h), tx.notification)
    ensures CoherentVersions(sha, h + [tx])
  {
    var longer := h + [tx];
    forall k | 0 <= k <= |longer|
      ensures Coherent(Version(sha, longer, k))
    {
      if k <= |h| {
        LongerVersions(sha, h, tx, k);
      } else {
        LastVersion(sha, h);
        NextVersion(sha, h, tx);
        ApplyKeepsCoherence(sha, Exec(sha, h), tx);
      }
    }
  }

  lemma NextVersion(sha: Sha512, h: seq<Tx>, tx: Tx)
    ensures Version(sha, h + [tx], |h| + 1) == Apply(sha, Exec(sha, h), tx).db
  {
    var longer := h + [tx];
    assert longer[..|h| + 1] == longer && longer[..|h|] == h && longer[|h|] == tx;
  }

  // ----- A marked batch stays marked -----

  /** The batch is the user's and is marked sent. */
  predicate SentBy(db: Db, user: Uuid, batch: Uuid) {
    OwnsBatch(db, user, batch) && db.batches[batch].sent
  }

  lemma SentStaysInOneStep(sha: Sha512, db: Db, tx: Tx, user: Uuid, batch: Uuid)
    requires SentBy(db, user, batch) && batch in Apply(sha, db, tx).db.batches
    ensures SentBy(Apply(sha, db, tx).db, user, batch)
  {
    match tx
    case OnNotification(t) => BatchTableGrows(db, t);
    case _ => OthersOnlyDropBatches(sha, db, tx);
  }

  lemma BatchWasThere(sha: Sha512, h: seq<Tx>, call: Call, k: nat)
    requires Fresh(h) && WellStarted(sha, h, call) && call.checkedAt <= k < |h|
    requires call.batch in Version(sha, h, k + 1).batches
    ensures OwnsBatch(Version(sha, h, k), call.user, call.batch)
  {
    EveryVersionIsRegistered(sha, h, call.checkedAt);
    RegisteredRow(Registry(h[..call.checkedAt]), Version(sha, h, call.checkedAt), Batches, call.batch);
    if call.batch !in Ids(Version(sha, h, k), Batches) {
      NoReturnInOneStep(sha, h, call.checkedAt, k, Batches, call.batch);
    }
    OneRowForEachId(sha, h, call.checkedAt, k, Batches, Batches, call.batch);
  }

  /** What version k + 1 stores of the batch is marked, if that was so in version k or step k marks it. */
  lemma SentAfterStep(sha: Sha512, h: seq<Tx>, call: Call, k: nat)
    requires Fresh(h) && WellStarted(sha, h, call) && call.checkedAt <= k < |h|
    requires h[k] != MarkOf(call) && call.batch in Version(sha, h, k).batches ==>
      SentBy(Version(sha, h, k), call.user, call.batch)
    ensures call.batch in Version(sha, h, k + 1).batches ==> SentBy(Version(sha, h, k + 1), call.user, call.batch)
  {
    if call.batch in Version(sha, h, k + 1).batches {
      BatchWasThere(sha, h, call, k);
      VersionStep(sha, h, k);
      if h[k] != MarkOf(call) {
        SentStaysInOneStep(sha, Version(sha, h, k), h[k], call.user, call.batch);
      }
    }
  }

  lemma {:induction false} SentFrom(sha: Sha512, h: seq<Tx>, call: Call, i: nat, k: nat)
    requires Fresh(h) && WellStarted(sha, h, call) && call.checkedAt <= i <= k <= |h|
    requires call.batch in Version(sha, h, i).batches ==> SentBy(Version(sha, h, i), call.user, call.batch)
    ensures call.batch in Version(sha, h, k).batches ==> SentBy(Version(sha, h, k), call.user, call.batch)
    decreases k - i
  {
    if i < k {
      SentAfterStep(sha, h, call, i);
      SentFrom(sha, h, call, i + 1, k);
    }
  }

  /** After the update of a call, its batch is marked sent in every version that stores it. */
  lemma MarkedIsSent(sha: Sha512, h: seq<Tx>, call: Call, k: nat)
    requires Fresh(h) && WellStarted(sha, h, call) && WellMarked(h, call) && !call.phase.Checked?
    requires call.phase.markedAt < k <= |h|
    requires call.batch in Version(sha, h, k).batches
    ensures SentBy(Version(sha, h, k), call.user, call.batch)
  {
    SentAfterStep(sha, h, call, call.phase.markedAt);
    SentFrom(sha, h, call, call.phase.markedAt + 1, k);
  }

  // ----- What the loop inserts is justified although it was read long ago -----

  lemma TargetHasMaster(db: Db, user: Uuid, d: Delivery)
    requires Coherent(db) && d in Targets(db, user)
    ensures d.group in db.groups && db.groups[d.group].master == user
    ensures d.recipient in db.recipients && db.recipients[d.recipient].master == user
    ensures d.chat in db.contacts && db.contacts[d.chat]
  {
    var m :| m in db.memberships && GroupReaches(db, user, m.group) && Subscribed(db, m.recipient)
      && d == DeliveryOf(db, m);
    assert MembershipReferences(m, db.recipients, db.groups);
  }

  /** The rows that a call read still belong to its user, wherever they are still stored. */
  lemma TargetKeepsMaster(sha: Sha512, h: seq<Tx>, call: Call, d: Delivery)
    requires Fresh(h) && CoherentVersions(sha, h) && WellRead(sha, h, call)
    requires call.phase.Looping? && d in call.phase.pending
    ensures d.group in Exec(sha, h).groups ==> Exec(sha, h).groups[d.group].master == call.user
    ensures d.recipient in Exec(sha, h).recipients ==> Exec(sha, h).recipients[d.recipient].master == call.user
  {
    var k := call.phase.readAt;
    assert Coherent(Version(sha, h, k));
    TargetHasMaster(Version(sha, h, k), call.user, d);
    if d.group in Exec(sha, h).groups {
      RowKeepsMaster(sha, h, k, Groups, d.group);
    }
    if d.recipient in Exec(sha, h).recipients {
      RowKeepsMaster(sha, h, k, Recipients, d.recipient);
    }
  }

  lemma RowKeepsMaster(sha: Sha512, h: seq<Tx>, k: nat, t: Table, i: Uuid)
    requires Fresh(h) && k <= |h| && i in Ids(Version(sha, h, k), t) && i in Ids(Exec(sha, h), t)
    ensures MasterOf(Exec(sha, h), t, i) == MasterOf(Version(sha, h, k), t, i)
  {
    LastVersion(sha, h);
    OneRowForEachId(sha, h, k, |h|, t, t, i);
  }

  lemma CreationIsJustified(sha: Sha512, h: seq<Tx>, call: Call, d: Delivery, id: Uuid, timestamp: int)
    requires Fresh(h) && CoherentVersions(sha, h) && CallInv(sha, h, call)
    requires call.phase.Looping? && d in call.phase.pending
    ensures Justified(Exec(sha, h), CreationOf(call, d, id, timestamp).notification)
  {
    TargetKeepsMaster(sha, h, call, d);
    LastVersion(sha, h);
    if call.batch in Exec(sha, h).batches {
      MarkedIsSent(sha, h, call, |h|);
    }
  }

  // ----- One action -----

  /** Appending a transaction keeps what the invariant says about the calls that do not take part. */
  lemma HistoryGrows(sha: Sha512, s: Sys, tx: Tx)
    requires Inv(sha, s) && DrawsFresh(s.history, tx)
    requires tx.OnNotification? ==> Justified(Exec(sha, s.history), tx.notification)
    ensures Inv(sha, s.(history := s.history + [tx]))
  {
    FreshStays(s.history, tx);
    CoherenceStays(sha, s.history, tx);
    CallsStay(sha, s.history, tx, s.calls);
    ConsentsStay(sha, s.history, tx, s.log);
  }

  lemma CallsStay(sha: Sha512, h: seq<Tx>, tx: Tx, calls: map<CallId, Call>)
    requires CallsInv(sha, h, calls)
    ensures CallsInv(sha, h + [tx], calls)
  {
    forall c | c in calls
      ensures CallInv(sha, h + [tx], calls[c])
    {
      CallStays(sha, h, tx, calls[c]);
    }
  }

  lemma ConsentsStay(sha: Sha512, h: seq<Tx>, tx: Tx, log: seq<LogEntry>)
    requires ConsentInv(sha, h, log)
    ensures ConsentInv(sha, h + [tx], log)
  {
    forall i | 0 <= i < |log|
      ensures Consented(sha, h + [tx], log[i])
    {
      ConsentStays(sha, h, tx, log[i]);
    }
  }

  /** Replacing the record of one call. */
  lemma CallChanges(sha: Sha512, s: Sys, c: CallId, call: Call)
    requires Inv(sha, s) && CallInv(sha, s.history, call) && Logged(s.log, c, call)
    ensures Inv(sha, s.(calls := s.calls[c := call]))
  {
    OneCallChanges(sha, s.history, s.calls, c, call);
    OneCallRelogged(s.calls, s.log, c, call);
  }

  lemma OneCallChanges(sha: Sha512, h: seq<Tx>, calls: map<CallId, Call>, c: CallId, call: Call)
    requires CallsInv(sha, h, calls) && CallInv(sha, h, call)
    ensures CallsInv(sha, h, calls[c := call])
  {
  }

  lemma OneCallRelogged(calls: map<CallId, Call>, log: seq<LogEntry>, c: CallId, call: Call)
    requires LogInv(calls, log) && Logged(log, c, call)
    ensures LogInv(calls[c := call], log)
  {
  }

  lemma MarkedCall(sha: Sha512, h: seq<Tx>, call: Call)
    requires CallInv(sha, h, call) && call.phase.Checked?
    ensures CallInv(sha, h + [MarkOf(call)], call.(phase := Marked(|h|)))
  {
    CallStays(sha, h, MarkOf(call), call);
  }

  lemma MarkExtendsHistory(sha: Sha512, s: Sys, call: Call)
    requires Inv(sha, s)
    ensures Inv(sha, s.(history := s.history + [MarkOf(call)]))
  {
    HistoryGrows(sha, s, MarkOf(call));
  }

  lemma MarkKeepsInv(sha: Sha512, s: Sys, c: CallId)
    requires Inv(sha, s) && c in s.calls && s.calls[c].phase.Checked?
    ensures Inv(sha, Sys(s.history + [MarkOf(s.calls[c])],
                         s.calls[c := s.calls[c].(phase := Marked(|s.history|))], s.log))
  {
    var call := s.calls[c];
    MarkExtendsHistory(sha, s, call);
    MarkedCall(sha, s.history, call);
    assert Logged(s.log, c, call);
    CallChanges(sha, s.(history := s.history + [MarkOf(call)]), c, call.(phase := Marked(|s.history|)));
  }

  lemma ItsCommit(sha: Sha512, h: seq<Tx>, call: Call, d: Delivery, id: Uuid, timestamp: int)
    requires Apply(sha, Exec(sha, h), CreationOf(call, d, id, timestamp)).reply.Ok?
    ensures CommittedFor(sha, h + [CreationOf(call, d, id, timestamp)], call, d, Created(id, |h|))
  {
    var tx := CreationOf(call, d, id, timestamp);
    var longer := h + [tx];
    CreationReply(sha, Exec(sha, h), call, d, id, timestamp);
    assert longer[..|h|] == h && longer[|h|] == tx;
    assert ReplyAt(sha, longer, |h|) == Apply(sha, Exec(sha, h), tx).reply;
  }

  lemma CreationReply(sha: Sha512, db: Db, call: Call, d: Delivery, id: Uuid, timestamp: int)
    requires Apply(sha, db, CreationOf(call, d, id, timestamp)).reply.Ok?
    ensures Apply(sha, db, CreationOf(call, d, id, timestamp)).reply == Ok(NewNotification(id))
  {
    assert Apply(sha, db, CreationOf(call, d, id, timestamp))
        == CreateNotification(db, id, Telegram, timestamp, call.batch, d.recipient, d.group);
  }

  function WithCreated(call: Call, created: Created): Call
    requires call.phase.Looping?
  {
    call.(phase := call.phase.(created := call.phase.created + [created]))
  }

  lemma CreatedInStep(sha: Sha512, h: seq<Tx>, call: Call, created: Created)
    requires call.phase.Looping? && InStep(sha, h, call)
    requires |call.phase.created| == call.phase.sent < |call.phase.pending|
    requires CommittedFor(sha, h, call, call.phase.pending[call.phase.sent], created)
    requires forall i :: 0 <= i < |call.phase.created| ==> call.phase.created[i].at < created.at
    ensures InStep(sha, h, WithCreated(call, created))
  {
    var next := WithCreated(call, created);
    forall i | 0 <= i < |next.phase.created|
      ensures CommittedFor(sha, h, next, next.phase.pending[i], next.phase.created[i])
    {
      assert CommittedFor(sha, h, call, next.phase.pending[i], next.phase.created[i]);
      SameCall(sha, h, call, next, next.phase.pending[i], next.phase.created[i]);
    }
  }

  lemma SameCall(sha: Sha512, h: seq<Tx>, call: Call, next: Call, d: Delivery, created: Created)
    requires CommittedFor(sha, h, call, d, created) && call.batch == next.batch
    ensures CommittedFor(sha, h, next, d, created)
  {
    var timestamp :| h[created.at] == CreationOf(call, d, created.id, timestamp);
    assert h[created.at] == CreationOf(next, d, created.id, timestamp);
  }

  lemma CreatingCall(sha: Sha512, h: seq<Tx>, call: Call, id: Uuid, timestamp: int)
    requires CallInv(sha, h, call) && call.phase.Looping?
    requires |call.phase.created| == call.phase.sent < |call.phase.pending|
    requires Apply(sha, Exec(sha, h), CreationOf(call, call.phase.pending[call.phase.sent], id, timestamp)).reply.Ok?
    ensures CallInv(sha, h + [CreationOf(call, call.phase.pending[call.phase.sent], id, timestamp)],
                    WithCreated(call, Created(id, |h|)))
  {
    var d := call.phase.pending[call.phase.sent];
    ItsCommit(sha, h, call, d, id, timestamp);
    assert forall i :: 0 <= i < |call.phase.created| ==> call.phase.created[i].at < |h|;
    CallStays(sha, h, CreationOf(call, d, id, timestamp), call);
    CreatedInStep(sha, h + [CreationOf(call, d, id, timestamp)], call, Created(id, |h|));
  }

  lemma StoppedCall(sha: Sha512, h: seq<Tx>, log: seq<LogEntry>, c: CallId, call: Call)
    requires CallInv(sha, h, call) && Logged(log, c, call)
    ensures CallInv(sha, h, call.(alive := false)) && Logged(log, c, call.(alive := false))
  {
    if call.phase.Looping? {
      forall i | 0 <= i < |call.phase.created|
        ensures CommittedFor(sha, h, call.(alive := false), call.phase.pending[i], call.phase.created[i])
      {
        SameCall(sha, h, call, call.(alive := false), call.phase.pending[i], call.phase.created[i]);
      }
    }
  }

  lemma CreationDrawsFresh(h: seq<Tx>, call: Call, d: Delivery, id: Uuid, timestamp: int)
    requires id !in Registry(h)
    ensures DrawsFresh(h, CreationOf(call, d, id, timestamp))
  {
  }

  lemma CreateExtendsHistory(sha: Sha512, s: Sys, c: CallId, id: Uuid, timestamp: int)
    requires Inv(sha, s) && c in s.calls && s.calls[c].phase.Looping? && id !in Registry(s.history)
    requires s.calls[c].phase.sent < |s.calls[c].phase.pending|
    ensures var call := s.calls[c];
      Inv(sha, s.(history := s.history + [CreationOf(call, call.phase.pending[call.phase.sent], id, timestamp)]))
  {
    var call := s.calls[c];
    var d := call.phase.pending[call.phase.sent];
    assert CallInv(sha, s.history, call);
    CreationDrawsFresh(s.history, call, d, id, timestamp);
    CreationIsJustified(sha, s.history, call, d, id, timestamp);
    HistoryGrows(sha, s, CreationOf(call, d, id, timestamp));
  }

  lemma CreateKeepsInv(sha: Sha512, s: Sys, c: CallId, id: Uuid, timestamp: int)
    requires Inv(sha, s) && Enabled(sha, s, Create(c, id, timestamp))
    ensures Inv(sha, Do(sha, s, Create(c, id, timestamp)))
  {
    var call := s.calls[c];
    var tx := CreationOf(call, call.phase.pending[call.phase.sent], id, timestamp);
    var next := s.(history := s.history + [tx]);
    CreateExtendsHistory(sha, s, c, id, timestamp);
    assert Logged(s.log, c, call) && CallInv(sha, next.history, call);
    if Apply(sha, Exec(sha, s.history), tx).reply.Ok? {
      CreatingCall(sha, s.history, call, id, timestamp);
      CallChanges(sha, next, c, WithCreated(call, Created(id, |s.history|)));
    } else {
      StoppedCall(sha, next.history, s.log, c, call);
      CallChanges(sha, next, c, call.(alive := false));
    }
  }

  lemma MessagesOfLonger(log: seq<LogEntry>, e: LogEntry, c: CallId)
    ensures MessagesOf(log + [e], c) == MessagesOf(log, c) + if e.call == c then [e.message] else []
  {
    assert (log + [e])[..|log|] == log;
  }

  function WithSent(call: Call): Call
    requires call.phase.Looping?
  {
    call.(phase := call.phase.(sent := call.phase.sent + 1))
  }

  lemma SendingCall(sha: Sha512, h: seq<Tx>, call: Call)
    requires CallInv(sha, h, call) && call.phase.Looping? && call.phase.sent < |call.phase.created|
    ensures CallInv(sha, h, WithSent(call))
  {
    forall i | 0 <= i < |call.phase.created|
      ensures CommittedFor(sha, h, WithSent(call), call.phase.pending[i], call.phase.created[i])
    {
      SameCall(sha, h, call, WithSent(call), call.phase.pending[i], call.phase.created[i]);
    }
  }

  lemma SendIsLogged(log: seq<LogEntry>, c: CallId, call: Call, e: LogEntry)
    requires call.phase.Looping? && Logged(log, c, call) && call.phase.sent < |call.phase.pending|
    requires e.call == c && e.message == MessageOf(call.phase.pending[call.phase.sent])
    ensures Logged(log + [e], c, WithSent(call))
  {
    var p := call.phase;
    MessagesOfLonger(log, e, c);
    assert Prefix(p.pending, p.sent + 1) == Prefix(p.pending, p.sent) + [e.message];
  }

  lemma SendIsConsented(sha: Sha512, h: seq<Tx>, c: CallId, call: Call, i: nat)
    requires CoherentVersions(sha, h) && WellRead(sha, h, call) && call.phase.Looping? && i < |call.phase.pending|
    ensures Consented(sha, h, LogEntry(c, call.phase.readAt, MessageOf(call.phase.pending[i])))
  {
    assert Coherent(Version(sha, h, call.phase.readAt)) && call.phase.pending[i] in call.phase.pending;
    TargetHasMaster(Version(sha, h, call.phase.readAt), call.user, call.phase.pending[i]);
  }

  /** A message of one call changes the log of that call alone. */
  lemma LogGrows(sha: Sha512, s: Sys, c: CallId, call: Call, e: LogEntry)
    requires Inv(sha, s) && c in s.calls && e.call == c
    requires CallInv(sha, s.history, call) && Logged(s.log + [e], c, call) && Consented(sha, s.history, e)
    ensures Inv(sha, s.(calls := s.calls[c := call], log := s.log + [e]))
  {
    OneCallChanges(sha, s.history, s.calls, c, call);
    OneLogGrows(s.calls, s.log, c, call, e);
    OneMoreConsent(sha, s.history, s.log, e);
  }

  lemma OneLogGrows(calls: map<CallId, Call>, log: seq<LogEntry>, c: CallId, call: Call, e: LogEntry)
    requires LogInv(calls, log) && c in calls && e.call == c && Logged(log + [e], c, call)
    ensures LogInv(calls[c := call], log + [e])
  {
    forall b
      ensures MessagesOf(log + [e], b) == MessagesOf(log, b) + if e.call == b then [e.message] else []
    {
      MessagesOfLonger(log, e, b);
    }
    forall b | b in calls && b != c
      ensures Logged(log + [e], b, calls[b])
    {
      assert Logged(log, b, calls[b]);
    }
  }

  lemma OneMoreConsent(sha: Sha512, h: seq<Tx>, log: seq<LogEntry>, e: LogEntry)
    requires ConsentInv(sha, h, log) && Consented(sha, h, e)
    ensures ConsentInv(sha, h, log + [e])
  {
  }

  lemma SendsItsNextMessage(sha: Sha512, s: Sys, c: CallId, call: Call, e: LogEntry)
    requires Inv(sha, s) && c in s.calls && call == s.calls[c] && call.phase.Looping?
    requires call.phase.sent < |call.phase.created| && call.phase.sent < |call.phase.pending|
    requires e == LogEntry(c, call.phase.readAt, MessageOf(call.phase.pending[call.phase.sent]))
    ensures Inv(sha, s.(calls := s.calls[c := WithSent(call)], log := s.log + [e]))
  {
    assert Logged(s.log, c, call) && CallInv(sha, s.history, call);
    SendingCall(sha, s.history, call);
    SendIsLogged(s.log, c, call, e);
    SendIsConsented(sha, s.history, c, call, call.phase.sent);
    LogGrows(sha, s, c, WithSent(call), e);
  }

  lemma SendKeepsInv(sha: Sha512, s: Sys, c: CallId)
    requires Inv(sha, s) && Enabled(sha, s, Send(c))
    ensures Inv(sha, Do(sha, s, Send(c)))
  {
    var call := s.calls[c];
    var e := LogEntry(c, call.phase.readAt, MessageOf(call.phase.pending[call.phase.sent]));
    SendsItsNextMessage(sha, s, c, call, e);
    assert Do(sha, s, Send(c)) == s.(calls := s.calls[c := WithSent(call)], log := s.log + [e]);
  }

  lemma StartKeepsInv(sha: Sha512, s: Sys, a: Action)
    requires Inv(sha, s) && Enabled(sha, s, a) && a.Start?
    ensures Inv(sha, Do(sha, s, a))
  {
    CallChanges(sha, s, a.call, Call(a.user, a.batch, a.seen, Checked, true));
  }

  lemma ReadKeepsInv(sha: Sha512, s: Sys, a: Action)
    requires Inv(sha, s) && Enabled(sha, s, a) && a.Read?
    ensures Inv(sha, Do(sha, s, a))
  {
    var call := s.calls[a.call];
    assert Logged(s.log, a.call, call);
    assert CallInv(sha, s.history, call);
    CallChanges(sha, s, a.call, call.(phase := Looping(call.phase.markedAt, a.seen, a.pending, [], 0)));
  }

  lemma FailKeepsInv(sha: Sha512, s: Sys, c: CallId)
    requires Inv(sha, s) && c in s.calls
    ensures Inv(sha, s.(calls := s.calls[c := s.calls[c].(alive := false)]))
  {
    StoppedCall(sha, s.history, s.log, c, s.calls[c]);
    CallChanges(sha, s, c, s.calls[c].(alive := false));
  }

  lemma ActionKeepsInv(sha: Sha512, s: Sys, a: Action)
    requires Inv(sha, s) && Enabled(sha, s, a)
    ensures Inv(sha, Do(sha, s, a))
  {
    match a
    case Commit(tx, _) => HistoryGrows(sha, s, tx);
    case Mark(c) => MarkKeepsInv(sha, s, c);
    case Create(c, id, timestamp) => CreateKeepsInv(sha, s, c, id, timestamp);
    case Send(c) => SendKeepsInv(sha, s, c);
    case Start(_, _, _, _) => StartKeepsInv(sha, s, a);
    case Read(_, _, _) => ReadKeepsInv(sha, s, a);
    case Fail(c) => FailKeepsInv(sha, s, c);
  }

  lemma {:induction false} EveryRunKeepsInv(sha: Sha512, actions: seq<Action>)
    requires Run(sha, actions)
    ensures Inv(sha, After(sha, actions))
    decreases |actions|
  {
    if actions != [] {
      var before := actions[..|actions| - 1];
      EveryRunKeepsInv(sha, before);
      ActionKeepsInv(sha, After(sha, before), actions[|actions| - 1]);
    }
  }
}
