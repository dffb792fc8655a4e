/** SendBatch step by step, interleaved with every other request, with bot commands and with other
    calls of SendBatch. The reads that go to a replica see an arbitrary earlier version. */
module Protocol {
  import opened Prelude
  import opened Tables
  import opened Requests
  import opened History
  import opened Identity
  import opened Outreach

  /** A notification a call has committed, and the transaction that did it. */
  datatype Created = Created(id: Uuid, at: nat)

  datatype Phase =
    | Checked
    | Marked(markedAt: nat)
    | Looping(markedAt: nat, readAt: nat, pending: seq<Delivery>, created: seq<Created>, sent: nat)

  /** One call of SendBatch. It is no longer alive once an exception has left it. */
  datatype Call = Call(user: Uuid, batch: Uuid, checkedAt: nat, phase: Phase, alive: bool)

  type CallId = nat

  datatype LogEntry = LogEntry(call: CallId, readAt: nat, message: Message)

  datatype Sys = Sys(history: seq<Tx>, calls: map<CallId, Call>, log: seq<LogEntry>)

  const INITIAL := Sys([], map[], [])

  datatype Action =
    | Commit(tx: Tx, seen: nat)                                       // any other transaction
    | Start(call: CallId, user: Uuid, batch: Uuid, seen: nat)         // the existence query
    | Mark(call: CallId)                                              // the update
    | Read(call: CallId, seen: nat, pending: seq<Delivery>)           // the five-table query
    | Create(call: CallId, id: Uuid, timestamp: int)                  // one CreateNotification
    | Send(call: CallId)                                              // one SendMessage
    | Fail(call: CallId)                                              // an exception anywhere

  ghost predicate DrawsFresh(h: seq<Tx>, tx: Tx) {
    Draw(tx).Some? ==> Draw(tx).value.id !in Registry(h)
  }

  /** Only SendBatch marks batches and creates notifications; a subscription looks the contact up first. */
  ghost predicate Committable(sha: Sha512, h: seq<Tx>, tx: Tx, seen: nat) {
    && DrawsFresh(h, tx)
    && (tx.OnNotification? ==> tx.notification.CreateBatchTx? || tx.notification.CancelNotificationTx?)
    && (tx.OnContact? && tx.contact.SubscribeTx? ==>
          seen <= |h| && tx.contact.known == (tx.contact.chat in Version(sha, h, seen).contacts))
  }

  predicate Active(s: Sys, c: CallId) {
    c in s.calls && s.calls[c].alive
  }

  function MarkOf(call: Call): Tx {
    OnNotification(MarkSentTx(call.user, call.batch))
  }

  function CreationOf(call: Call, d: Delivery, id: Uuid, timestamp: int): Tx {
    OnNotification(CreateNotificationTx(id, timestamp, call.batch, d.recipient, d.group))
  }

  ghost predicate Enabled(sha: Sha512, s: Sys, a: Action) {
    match a
    case Commit(tx, seen) => Committable(sha, s.history, tx, seen)
    case Start(c, user, batch, seen) =>
      c !in s.calls && seen <= |s.history| && BatchPending(Version(sha, s.history, seen), user, batch)
    case Mark(c) => Active(s, c) && s.calls[c].phase.Checked?
    case Read(c, seen, pending) =>
      && Active(s, c) && s.calls[c].phase.Marked? && seen <= |s.history|
      && Enumerates(pending, Targets(Version(sha, s.history, seen), s.calls[c].user))
    case Create(c, id, timestamp) =>
      && Active(s, c) && s.calls[c].phase.Looping?
      && |s.calls[c].phase.created| == s.calls[c].phase.sent < |s.calls[c].phase.pending|
      && id !in Registry(s.history)
    case Send(c) =>
      && Active(s, c) && s.calls[c].phase.Looping?
      && s.calls[c].phase.sent < |s.calls[c].phase.created|
      && s.calls[c].phase.sent < |s.calls[c].phase.pending|
    case Fail(c) => Active(s, c)
  }

  function Do(sha: Sha512, s: Sys, a: Action): Sys
    requires Enabled(sha, s, a)
  {
    match a
    case Commit(tx, _) => s.(history := s.history + [tx])
    case Start(c, user, batch, seen) => s.(calls := s.calls[c := Call(user, batch, seen, Checked, true)])
    case Mark(c) =>
      var call := s.calls[c];
      s.(history := s.history + [MarkOf(call)],
         calls := s.calls[c := call.(phase := Marked(|s.history|))])
    case Read(c, seen, pending) =>
      var call := s.calls[c];
      s.(calls := s.calls[c := call.(phase := Looping(call.phase.markedAt, seen, pending, [], 0))])
    case Create(c, id, timestamp) =>
      var call := s.calls[c];
      var tx := CreationOf(call, call.phase.pending[call.phase.sent], id, timestamp);
      var next :=
        if Apply(sha, Exec(sha, s.history), tx).reply.Ok? then
          call.(phase := call.phase.(created := call.phase.created + [Created(id, |s.history|)]))
        else call.(alive := false);
      s.(history := s.history + [tx], calls := s.calls[c := next])
    case Send(c) =>
      var call := s.calls[c];
      var message := MessageOf(call.phase.pending[call.phase.sent]);
      s.(calls := s.calls[c := call.(phase := call.phase.(sent := call.phase.sent + 1))],
         log := s.log + [LogEntry(c, call.phase.readAt, message)])
    case Fail(c) => s.(calls := s.calls[c := s.calls[c].(alive := false)])
  }

  /** A run is a sequence of actions, each enabled where it happens. */
  ghost predicate Run(sha: Sha512, actions: seq<Action>)
    decreases |actions|, 0
  {
    actions == [] ||
    (Run(sha, actions[..|actions| - 1]) && Enabled(sha, After(sha, actions[..|actions| - 1]), actions[|actions| - 1]))
  }

  /** The state a run leads to. */
  ghost function After(sha: Sha512, actions: seq<Action>): Sys
    requires Run(sha, actions)
    decreases |actions|, 1
  {
    if actions == [] then INITIAL
    else Do(sha, After(sha, actions[..|actions| - 1]), actions[|actions| - 1])
  }

  // ----- What every reachable state satisfies -----

  /** The messages of one call, in the order in which they were sent. */
  function MessagesOf(log: seq<LogEntry>, c: CallId): seq<Message> {
    if log == [] then []
    else
      var n := |log| - 1;
      MessagesOf(log[..n], c) + if log[n].call == c then [log[n].message] else []
  }

  /** Transaction n of the history committed the notification of one delivery. */
  ghost predicate CommittedFor(sha: Sha512, h: seq<Tx>, call: Call, d: Delivery, created: Created) {
    && created.at < |h|
    && ReplyAt(sha, h, created.at) == Ok(NewNotification(created.id))
    && exists timestamp :: h[created.at] == CreationOf(call, d, created.id, timestamp)
  }

  ghost predicate WellStarted(sha: Sha512, h: seq<Tx>, call: Call) {
    call.checkedAt <= |h| && BatchPending(Version(sha, h, call.checkedAt), call.user, call.batch)
  }

  ghost predicate WellMarked(h: seq<Tx>, call: Call) {
    !call.phase.Checked? ==>
      && call.checkedAt <= call.phase.markedAt < |h|
      && h[call.phase.markedAt] == MarkOf(call)
  }

  ghost predicate WellRead(sha: Sha512, h: seq<Tx>, call: Call) {
    call.phase.Looping? ==>
      && call.phase.readAt <= |h|
      && Enumerates(call.phase.pending, Targets(Version(sha, h, call.phase.readAt), call.user))
  }

  /** A call is at most one notification ahead of its messages. */
  ghost predicate InStep(sha: Sha512, h: seq<Tx>, call: Call) {
    call.phase.Looping? ==>
      var p := call.phase;
      && p.sent <= |p.created| <= p.sent + 1
      && |p.created| <= |p.pending|
      && (forall i, j :: 0 <= i < j < |p.created| ==> p.created[i].at < p.created[j].at)
      && forall i :: 0 <= i < |p.created| ==> CommittedFor(sha, h, call, p.pending[i], p.created[i])
  }

  ghost predicate CallInv(sha: Sha512, h: seq<Tx>, call: Call) {
    WellStarted(sha, h, call) && WellMarked(h, call) && WellRead(sha, h, call) && InStep(sha, h, call)
  }

  /** The messages in the log are those the call counts as sent. */
  ghost predicate Logged(log: seq<LogEntry>, c: CallId, call: Call) {
    if call.phase.Looping? then
      call.phase.sent <= |call.phase.pending| && MessagesOf(log, c) == Prefix(call.phase.pending, call.phase.sent)
    else MessagesOf(log, c) == []
  }

  /** The chat was subscribed in the version that the call read. */
  ghost predicate Consented(sha: Sha512, h: seq<Tx>, e: LogEntry) {
    && e.readAt <= |h|
    && e.message.chat in Version(sha, h, e.readAt).contacts
    && Version(sha, h, e.readAt).contacts[e.message.chat]
  }

  ghost predicate CoherentVersions(sha: Sha512, h: seq<Tx>) {
    forall k :: 0 <= k <= |h| ==> Coherent(Version(sha, h, k))
  }

  ghost predicate CallsInv(sha: Sha512, h: seq<Tx>, calls: map<CallId, Call>) {
    forall c :: c in calls ==> CallInv(sha, h, calls[c])
  }

  ghost predicate LogInv(calls: map<CallId, Call>, log: seq<LogEntry>) {
    && (forall c :: c in calls ==> Logged(log, c, calls[c]))
    && (forall c :: c !in calls ==> MessagesOf(log, c) == [])
  }

  ghost predicate ConsentInv(sha: Sha512, h: seq<Tx>, log: seq<LogEntry>) {
    forall i :: 0 <= i < |log| ==> Consented(sha, h, log[i])
  }

  ghost predicate Inv(sha: Sha512, s: Sys) {
    && Fresh(s.history)
    && CoherentVersions(sha, s.history)
    && CallsInv(sha, s.history, s.calls)
    && LogInv(s.calls, s.log)
    && ConsentInv(sha, s.history, s.log)
  }
}
