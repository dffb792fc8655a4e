/** Continuing a run by one action, and by one request that reads nothing else. */
module Runs {
  import opened Tables
  import opened Requests
  import opened History
  import opened Identity
  import opened Protocol
  import opened ProtocolSafety

  lemma RunStep(sha: Sha512, actions: seq<Action>, a: Action)
    requires Run(sha, actions) && Enabled(sha, After(sha, actions), a)
    ensures Run(sha, actions + [a])
    ensures After(sha, actions + [a]) == Do(sha, After(sha, actions), a)
  {
    assert (actions + [a])[..|actions|] == actions;
  }

  lemma ExecNext(sha: Sha512, h: seq<Tx>, tx: Tx)
    ensures Exec(sha, h + [tx]) == Apply(sha, Exec(sha, h), tx).db
  {
    assert (h + [tx])[..|h|] == h && (h + [tx])[|h|] == tx;
  }

  function DrawnBy(tx: Tx): set<Uuid> {
    if Draw(tx).Some? then {Draw(tx).value.id} else {}
  }

  lemma RegistryNext(h: seq<Tx>, tx: Tx)
    ensures Registry(h + [tx]).Keys == Registry(h).Keys + DrawnBy(tx)
  {
    assert (h + [tx])[..|h|] == h && (h + [tx])[|h|] == tx;
  }

  /** A request that every database allows: SendBatch commits the others, and the existence query of a
      subscription sees the empty database. */
  predicate Unconditional(tx: Tx) {
    && (tx.OnNotification? ==> tx.notification.CreateBatchTx? || tx.notification.CancelNotificationTx?)
    && (tx.OnContact? && tx.contact.SubscribeTx? ==> !tx.contact.known)
  }

  lemma RequestIsCommittable(sha: Sha512, h: seq<Tx>, tx: Tx)
    requires Unconditional(tx) && DrawnBy(tx) !! Registry(h).Keys
    ensures Committable(sha, h, tx, 0)
  {
    assert h[..0] == [];
    assert Version(sha, h, 0) == EMPTY_DB;
    if Draw(tx).Some? {
      assert Draw(tx).value.id in DrawnBy(tx);
    }
  }

  /** Such a request, with a fresh id if it draws one, can be committed in every state. */
  lemma RequestRuns(sha: Sha512, actions: seq<Action>, tx: Tx)
    requires Run(sha, actions) && Unconditional(tx) && DrawnBy(tx) !! Registry(After(sha, actions).history).Keys
    ensures Run(sha, actions + [Commit(tx, 0)])
    ensures After(sha, actions + [Commit(tx, 0)])
         == After(sha, actions).(history := After(sha, actions).history + [tx])
  {
    RequestIsCommittable(sha, After(sha, actions).history, tx);
    RunStep(sha, actions, Commit(tx, 0));
  }

  /** The run that it leads to. */
  lemma RequestRunsOn(sha: Sha512, actions: seq<Action>, tx: Tx) returns (run: seq<Action>)
    requires Run(sha, actions) && Unconditional(tx) && DrawnBy(tx) !! Registry(After(sha, actions).history).Keys
    ensures Run(sha, run)
    ensures After(sha, run) == After(sha, actions).(history := After(sha, actions).history + [tx])
    ensures Registry(After(sha, run).history).Keys == Registry(After(sha, actions).history).Keys + DrawnBy(tx)
    ensures Exec(sha, After(sha, run).history) == Apply(sha, Exec(sha, After(sha, actions).history), tx).db
  {
    RequestRuns(sha, actions, tx);
    ExecNext(sha, After(sha, actions).history, tx);
    RegistryNext(After(sha, actions).history, tx);
    run := actions + [Commit(tx, 0)];
  }

  /** An id that is not drawn is not stored. */
  lemma NotStoredYet(sha: Sha512, actions: seq<Action>, id: Uuid)
    requires Run(sha, actions) && id !in Registry(After(sha, actions).history)
    ensures Unstored(Exec(sha, After(sha, actions).history), id)
  {
    var h := After(sha, actions).history;
    EveryRunKeepsInv(sha, actions);
    EveryVersionIsRegistered(sha, h, |h|);
    LastVersion(sha, h);
    assert h[..|h|] == h;
    UnregisteredIsUnstored(Registry(h), Exec(sha, h), id);
  }
}
