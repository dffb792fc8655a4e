/** Which calls of SendBatch get past the check of a batch. */
module BatchEntry {
  import opened Tables
  import opened Cascade
  import opened Deletions
  import opened Requests
  import opened History
  import opened Footprints
  import opened SchemaIntegrity
  import opened Identity
  import opened Protocol
  import opened ProtocolSafety

  /** The transaction marks the batch of the user, or deletes the user. */
  predicate EndsPending(tx: Tx, user: Uuid, batch: Uuid) {
    tx == OnNotification(MarkSentTx(user, batch)) || tx == OnUser(DeleteUserTx(user))
  }

  lemma UserRequestsLeavePending(sha: Sha512, db: Db, tx: UserTx, user: Uuid, batch: Uuid)
    requires BatchPending(db, user, batch) && tx != DeleteUserTx(user)
    ensures BatchPending(ApplyUser(sha, db, tx).db, user, batch)
  {
    if tx.DeleteUserTx? {
      DeletedUsersBatches(db, tx.user);
    } else {
      UserFootprint(sha, db, tx);
    }
  }

  lemma DeletedUsersBatches(db: Db, user: Uuid)
    ensures DeleteUser(db, user).db.batches ==
      if user in db.users then BatchesWithout(db.batches, user) else db.batches
  {
    DoomedByUser(db, user);
    KeepOthersBatches(db, Doomed(db, {Row(Users, user)}), user);
  }

  lemma NotificationRequestsLeavePending(db: Db, tx: NotificationTx, user: Uuid, batch: Uuid)
    requires BatchPending(db, user, batch) && tx != MarkSentTx(user, batch)
    ensures BatchPending(ApplyNotification(db, tx).db, user, batch)
  {
    match tx
    case CreateBatchTx(_, _) =>
    case MarkSentTx(u, b) =>
    case CreateNotificationTx(id, created, b, member, target) =>
      CreateNotificationFootprint(db, id, Telegram, created, b, member, target);
    case CancelNotificationTx(u, target) => CancelNotificationFootprint(db, u, target);
  }

  lemma PendingStays(sha: Sha512, db: Db, tx: Tx, user: Uuid, batch: Uuid)
    requires BatchPending(db, user, batch) && !EndsPending(tx, user, batch)
    ensures BatchPending(Apply(sha, db, tx).db, user, batch)
  {
    match tx
    case OnUser(t) => UserRequestsLeavePending(sha, db, t, user, batch);
    case OnTemplate(t) => TemplateFootprint(db, t);
    case OnRecipient(t) => RecipientFootprint(db, t);
    case OnGroup(t) => GroupFootprint(db, t);
    case OnNotification(t) => NotificationRequestsLeavePending(db, t, user, batch);
    case OnContact(t) => ContactFootprint(db, t);
  }

  lemma PendingEnds(sha: Sha512, db: Db, tx: Tx, user: Uuid, batch: Uuid)
    requires BatchKeys(db.batches, db.users) && EndsPending(tx, user, batch)
    ensures !BatchPending(Apply(sha, db, tx).db, user, batch)
  {
    if tx.OnUser? {
      DeletedUsersBatches(db, user);
    }
  }

  /** A batch that was pending and is not any more does not become pending again. */
  lemma NotPendingAgain(sha: Sha512, h: seq<Tx>, j: nat, k: nat, user: Uuid, batch: Uuid)
    requires Fresh(h) && j <= k < |h|
    requires BatchPending(Version(sha, h, j), user, batch) && !BatchPending(Version(sha, h, k), user, batch)
    ensures !BatchPending(Version(sha, h, k + 1), user, batch)
  {
    if batch in Ids(Version(sha, h, k), Batches) {
      OneRowForEachId(sha, h, j, k, Batches, Batches, batch);
      VersionStep(sha, h, k);
      if batch in Version(sha, h, k + 1).batches {
        SentStaysInOneStep(sha, Version(sha, h, k), h[k], user, batch);
      }
    } else {
      StoredIsRegistered(sha, h, j, Batches, batch);
      NoReturnInOneStep(sha, h, j, k, Batches, batch);
    }
  }

  lemma PendingStep(sha: Sha512, h: seq<Tx>, j: nat, k: nat, user: Uuid, batch: Uuid)
    requires Fresh(h) && j <= k < |h| && BatchPending(Version(sha, h, j), user, batch)
    ensures BatchPending(Version(sha, h, k + 1), user, batch) <==>
      BatchPending(Version(sha, h, k), user, batch) && !EndsPending(h[k], user, batch)
  {
    if !BatchPending(Version(sha, h, k), user, batch) {
      NotPendingAgain(sha, h, j, k, user, batch);
    } else {
      VersionStep(sha, h, k);
      EveryStateHasIntegrity(sha, h[..k]);
      if EndsPending(h[k], user, batch) {
        PendingEnds(sha, Version(sha, h, k), h[k], user, batch);
      } else {
        PendingStays(sha, Version(sha, h, k), h[k], user, batch);
      }
    }
  }

  lemma {:induction false} PendingFrom(sha: Sha512, h: seq<Tx>, j: nat, i: nat, k: nat, user: Uuid, batch: Uuid)
    requires Fresh(h) && j <= i <= k <= |h| && BatchPending(Version(sha, h, j), user, batch)
    requires BatchPending(Version(sha, h, i), user, batch) <==>
      forall n :: j <= n < i ==> !EndsPending(h[n], user, batch)
    ensures BatchPending(Version(sha, h, k), user, batch) <==>
      forall n :: j <= n < k ==> !EndsPending(h[n], user, batch)
    decreases k - i
  {
    if i < k {
      PendingStep(sha, h, j, i, user, batch);
      PendingFrom(sha, h, j, i + 1, k, user, batch);
    }
  }

  /** A pending batch is pending in a later version exactly if, in between, it was not marked and its user
      was not deleted. */
  lemma PendingExactly(sha: Sha512, h: seq<Tx>, j: nat, k: nat, user: Uuid, batch: Uuid)
    requires Fresh(h) && j <= k <= |h| && BatchPending(Version(sha, h, j), user, batch)
    ensures BatchPending(Version(sha, h, k), user, batch) <==>
      forall n :: j <= n < k ==> !EndsPending(h[n], user, batch)
  {
    PendingFrom(sha, h, j, j, k, user, batch);
  }

  // ----- From the creation on -----

  /** Step i has stored this batch for its user. */
  ghost predicate BatchCreatedAt(sha: Sha512, h: seq<Tx>, i: nat, user: Uuid, batch: Uuid) {
    i < |h| && h[i] == OnNotification(CreateBatchTx(user, batch)) && ReplyAt(sha, h, i).Ok?
  }

  lemma PendingAfterCreation(sha: Sha512, h: seq<Tx>, i: nat, user: Uuid, batch: Uuid)
    requires BatchCreatedAt(sha, h, i, user, batch)
    ensures BatchPending(Version(sha, h, i + 1), user, batch)
  {
    VersionStep(sha, h, i);
    CreatedIsPending(Version(sha, h, i), user, batch);
  }

  lemma CreatedIsPending(db: Db, user: Uuid, batch: Uuid)
    requires CreateBatch(db, user, batch).reply.Ok?
    ensures BatchPending(CreateBatch(db, user, batch).db, user, batch)
  {
  }

  /** Before its creation the id of a batch is not drawn, so it is not stored. */
  lemma NotPendingBeforeCreation(sha: Sha512, h: seq<Tx>, i: nat, k: nat, user: Uuid, batch: Uuid)
    requires Fresh(h) && BatchCreatedAt(sha, h, i, user, batch) && k <= i
    ensures !BatchPending(Version(sha, h, k), user, batch)
  {
    if batch in Ids(Version(sha, h, k), Batches) {
      StoredIsRegistered(sha, h, k, Batches, batch);
      RegistryGrows(h, k, i, batch);
    }
  }

  /** A batch is pending in exactly the versions after its creation and up to its first update, as long as
      its user is not deleted. */
  lemma PendingSinceCreation(sha: Sha512, h: seq<Tx>, i: nat, k: nat, user: Uuid, batch: Uuid)
    requires Fresh(h) && BatchCreatedAt(sha, h, i, user, batch) && k <= |h|
    ensures BatchPending(Version(sha, h, k), user, batch) <==>
      i < k && forall n :: i < n < k ==> !EndsPending(h[n], user, batch)
  {
    if k <= i {
      NotPendingBeforeCreation(sha, h, i, k, user, batch);
    } else {
      PendingAfterCreation(sha, h, i, user, batch);
      PendingExactly(sha, h, i + 1, k, user, batch);
    }
  }

  lemma NotificationRequestsMakePending(db: Db, tx: NotificationTx, user: Uuid, batch: Uuid)
    requires BatchPending(ApplyNotification(db, tx).db, user, batch) && !BatchPending(db, user, batch)
    ensures tx == CreateBatchTx(user, batch) && ApplyNotification(db, tx).reply.Ok?
  {
    match tx
    case CreateBatchTx(_, _) =>
    case MarkSentTx(_, _) =>
    case CreateNotificationTx(id, created, b, member, target) =>
      CreateNotificationFootprint(db, id, Telegram, created, b, member, target);
    case CancelNotificationTx(u, target) => CancelNotificationFootprint(db, u, target);
  }

  /** A pending batch has been created by its user. */
  lemma {:induction false} BatchHasACreation(sha: Sha512, h: seq<Tx>, k: nat, user: Uuid, batch: Uuid)
    returns (i: nat)
    requires k <= |h| && BatchPending(Version(sha, h, k), user, batch)
    ensures i < k && BatchCreatedAt(sha, h, i, user, batch)
    decreases k
  {
    VersionStep(sha, h, k - 1);
    if BatchPending(Version(sha, h, k - 1), user, batch) {
      i := BatchHasACreation(sha, h, k - 1, user, batch);
    } else {
      i := k - 1;
      PendingIsNew(sha, Version(sha, h, i), h[i], user, batch);
    }
  }

  lemma PendingIsNew(sha: Sha512, db: Db, tx: Tx, user: Uuid, batch: Uuid)
    requires BatchPending(Apply(sha, db, tx).db, user, batch) && !BatchPending(db, user, batch)
    ensures tx == OnNotification(CreateBatchTx(user, batch)) && Apply(sha, db, tx).reply.Ok?
  {
    if tx.OnNotification? {
      NotificationRequestsMakePending(db, tx.notification, user, batch);
    } else {
      OthersOnlyDropBatches(sha, db, tx);
    }
  }

  /** Let b be the first call that marked its batch, and let step i have created that batch. Whatever version
      a call checks for this batch, the check passes exactly if that version is newer than the creation and
      not newer than the update of b, and the user was not deleted before it. */
  lemma ChecksPassExactly(sha: Sha512, actions: seq<Action>, b: CallId, c: CallId, k: nat) returns (i: nat)
    requires Run(sha, actions) && b in After(sha, actions).calls && c !in After(sha, actions).calls
    requires !After(sha, actions).calls[b].phase.Checked?
    requires forall n :: 0 <= n < After(sha, actions).calls[b].phase.markedAt && n < |After(sha, actions).history| ==>
      After(sha, actions).history[n] != MarkOf(After(sha, actions).calls[b])
    requires k <= |After(sha, actions).history|
    ensures var s := After(sha, actions);
      var call := s.calls[b];
      && BatchCreatedAt(sha, s.history, i, call.user, call.batch)
      && (Enabled(sha, s, Start(c, call.user, call.batch, k)) <==>
           && i < k <= call.phase.markedAt
           && forall n :: i < n < k ==> s.history[n] != OnUser(DeleteUserTx(call.user)))
  {
    var s := After(sha, actions);
    var call := s.calls[b];
    EveryRunKeepsInv(sha, actions);
    assert CallInv(sha, s.history, call);
    i := BatchHasACreation(sha, s.history, call.checkedAt, call.user, call.batch);
    PendingSinceCreation(sha, s.history, i, k, call.user, call.batch);
    if k > call.phase.markedAt {
      assert EndsPending(s.history[call.phase.markedAt], call.user, call.batch);
    }
  }
}
