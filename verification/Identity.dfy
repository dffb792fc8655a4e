/** In a fresh history an id names one row of one tenant for ever: every stored row sits in the table
    and under the owner its id was drawn for. */
module Identity {
  import opened Tables
  import opened Cascade
  import opened Requests
  import opened History
  import opened Footprints

  type Origins = map<Uuid, Origin>

  predicate HasOrigin(origins: Origins, i: Uuid, t: Table, master: Uuid) {
    i in origins && origins[i] == Origin(t, master)
  }

  ghost predicate KnownTemplates(origins: Origins, t: Table, table: map<Uuid, TemplateRow>) {
    forall i :: i in table ==> HasOrigin(origins, i, t, table[i].master)
  }

  ghost predicate KnownRecipients(origins: Origins, t: Table, table: map<Uuid, RecipientRow>) {
    forall i :: i in table ==> HasOrigin(origins, i, t, table[i].master)
  }

  ghost predicate KnownGroups(origins: Origins, t: Table, table: map<Uuid, GroupRow>) {
    forall i :: i in table ==> HasOrigin(origins, i, t, table[i].master)
  }

  ghost predicate KnownBatches(origins: Origins, table: map<Uuid, BatchRow>) {
    forall i :: i in table ==> HasOrigin(origins, i, Batches, table[i].master)
  }

  ghost predicate KnownIds(origins: Origins, t: Table, ids: set<Uuid>) {
    forall i :: i in ids ==> HasOrigin(origins, i, t, i)
  }

  ghost predicate Registered(origins: Origins, db: Db) {
    && KnownIds(origins, Users, db.users.Keys)
    && KnownTemplates(origins, Templates, db.templates)
    && KnownTemplates(origins, TemplateDrafts, db.templateDrafts)
    && KnownRecipients(origins, Recipients, db.recipients)
    && KnownRecipients(origins, RecipientDrafts, db.recipientDrafts)
    && KnownGroups(origins, Groups, db.groups)
    && KnownGroups(origins, GroupDrafts, db.groupDrafts)
    && KnownBatches(origins, db.batches)
    && KnownIds(origins, Notifications, db.notifications.Keys)
  }

  lemma RegisteredRow(origins: Origins, db: Db, t: Table, i: Uuid)
    requires Registered(origins, db) && i in Ids(db, t)
    ensures HasOrigin(origins, i, t, MasterOf(db, t, i))
  {
  }

  /** No table has a row with this id. */
  predicate Unstored(db: Db, i: Uuid) {
    && i !in db.users && i !in db.templates && i !in db.templateDrafts
    && i !in db.recipients && i !in db.recipientDrafts && i !in db.groups && i !in db.groupDrafts
    && i !in db.batches && i !in db.notifications
  }

  lemma UnregisteredIsUnstored(origins: Origins, db: Db, i: Uuid)
    requires Registered(origins, db) && i !in origins
    ensures Unstored(db, i)
  {
    assert i in db.users.Keys ==> HasOrigin(origins, i, Users, i);
    assert i in db.notifications.Keys ==> HasOrigin(origins, i, Notifications, i);
  }

  ghost predicate Extends(origins: Origins, more: Origins) {
    forall i :: i in origins ==> i in more && more[i] == origins[i]
  }

  lemma RegisteredInMore(origins: Origins, more: Origins, db: Db)
    requires Registered(origins, db) && Extends(origins, more)
    ensures Registered(more, db)
  {
  }

  /** The id a transaction draws is registered. */
  predicate DrawKnown(origins: Origins, tx: Tx) {
    match Draw(tx)
    case Some(drawn) => drawn.id in origins && origins[drawn.id] == drawn.origin
    case None => true
  }

  lemma ErasedStaysRegistered(origins: Origins, db: Db, gone: set<Ref>)
    requires Registered(origins, db)
    ensures Registered(origins, Erase(db, gone))
  {
  }

  lemma UsersStayRegistered(origins: Origins, sha: Sha512, db: Db, tx: UserTx)
    requires Registered(origins, db) && DrawKnown(origins, OnUser(tx))
    ensures Registered(origins, ApplyUser(sha, db, tx).db)
  {
    match tx
    case CreateUserTx(id, data, salt) =>
      CreateUserFootprint(sha, db, id, data, salt);
      CreatedUserIds(sha, db, id, data, salt);
    case ModifyUserTx(user, data, salt) =>
      ModifyUserFootprint(sha, db, user, data, salt);
      ModifiedUserIds(sha, db, user, data, salt);
    case DeleteUserTx(user) => ErasedStaysRegistered(origins, db, Doomed(db, {Row(Users, user)}));
  }

  lemma TemplatesStayRegistered(origins: Origins, db: Db, tx: TemplateTx)
    requires Registered(origins, db) && DrawKnown(origins, OnTemplate(tx))
    ensures Registered(origins, ApplyTemplate(db, tx).db)
  {
    if tx.DeleteTemplateTx? { ErasedStaysRegistered(origins, db, Doomed(db, {Row(Templates, tx.target)})); }
  }

  lemma RecipientsStayRegistered(origins: Origins, db: Db, tx: RecipientTx)
    requires Registered(origins, db) && DrawKnown(origins, OnRecipient(tx))
    ensures Registered(origins, ApplyRecipient(db, tx).db)
  {
    if tx.DeleteRecipientTx? { ErasedStaysRegistered(origins, db, Doomed(db, {Row(Recipients, tx.target)})); }
  }

  lemma GroupsStayRegistered(origins: Origins, db: Db, tx: GroupTx)
    requires Registered(origins, db) && DrawKnown(origins, OnGroup(tx))
    ensures Registered(origins, ApplyGroup(db, tx).db)
  {
    match tx
    case CreateGroupTx(user, id, data) => CreatedGroupStaysRegistered(origins, db, user, id, data);
    case ConfirmGroupTx(user, draft, id) => ConfirmedGroupStaysRegistered(origins, db, user, draft, id);
    case ModifyGroupTx(user, target, data) => ModifiedGroupStaysRegistered(origins, db, user, target, data);
    case DeleteGroupTx(user, target) => ErasedStaysRegistered(origins, db, Doomed(db, {Row(Groups, target)}));
    case AddRecipientTx(user, target, member) => AddRecipientFootprint(db, user, target, member);
    case RemoveRecipientTx(user, target, member) => RemoveRecipientFootprint(db, user, target, member);
  }

  lemma CreatedGroupStaysRegistered(origins: Origins, db: Db, user: Uuid, id: Uuid, data: GroupData)
    requires Registered(origins, db) && HasOrigin(origins, id, GroupDrafts, user)
    ensures Registered(origins, CreateGroup(db, user, id, data).db)
  {
  }

  lemma ConfirmedGroupStaysRegistered(origins: Origins, db: Db, user: Uuid, draft: Uuid, id: Uuid)
    requires Registered(origins, db) && HasOrigin(origins, id, Groups, user)
    ensures Registered(origins, ConfirmGroup(db, user, draft, id).db)
  {
  }

  lemma ModifiedGroupStaysRegistered(origins: Origins, db: Db, user: Uuid, target: Uuid, data: GroupData)
    requires Registered(origins, db)
    ensures Registered(origins, ModifyGroup(db, user, target, data).db)
  {
  }

  lemma NotificationsStayRegistered(origins: Origins, db: Db, tx: NotificationTx)
    requires Registered(origins, db) && DrawKnown(origins, OnNotification(tx))
    ensures Registered(origins, ApplyNotification(db, tx).db)
  {
  }

  lemma ApplyStaysRegistered(origins: Origins, sha: Sha512, db: Db, tx: Tx)
    requires Registered(origins, db) && DrawKnown(origins, tx)
    ensures Registered(origins, Apply(sha, db, tx).db)
  {
    match tx
    case OnUser(t) => UsersStayRegistered(origins, sha, db, t);
    case OnTemplate(t) => TemplatesStayRegistered(origins, db, t);
    case OnRecipient(t) => RecipientsStayRegistered(origins, db, t);
    case OnGroup(t) => GroupsStayRegistered(origins, db, t);
    case OnNotification(t) => NotificationsStayRegistered(origins, db, t);
    case OnContact(t) => ContactFootprint(db, t);
  }

  // ----- Over whole histories -----

  /** Version k of the database: the state after the first k transactions. */
  function Version(sha: Sha512, h: seq<Tx>, k: nat): Db
    requires k <= |h|
  {
    Exec(sha, h[..k])
  }

  lemma VersionStep(sha: Sha512, h: seq<Tx>, k: nat)
    requires k < |h|
    ensures Version(sha, h, k + 1) == Apply(sha, Version(sha, h, k), h[k]).db
  {
    assert h[..k + 1][..k] == h[..k];
  }

  lemma DrawnIsKnown(h: seq<Tx>, k: nat)
    requires k < |h|
    ensures DrawKnown(Registry(h[..k + 1]), h[k])
  {
    assert h[..k + 1][..k] == h[..k];
  }

  lemma RegistryExtends(h: seq<Tx>, j: nat, k: nat)
    requires Fresh(h) && j <= k <= |h|
    ensures Extends(Registry(h[..j]), Registry(h[..k]))
  {
    forall i | i in Registry(h[..j])
      ensures i in Registry(h[..k]) && Registry(h[..k])[i] == Registry(h[..j])[i]
    {
      RegistryGrows(h, j, k, i);
    }
  }

  /** Every version stores only ids drawn before it, each where it was drawn for. */
  lemma {:induction false} EveryVersionIsRegistered(sha: Sha512, h: seq<Tx>, k: nat)
    requires Fresh(h) && k <= |h|
    ensures Registered(Registry(h[..k]), Version(sha, h, k))
    decreases k
  {
    if k > 0 {
      EveryVersionIsRegistered(sha, h, k - 1);
      VersionStep(sha, h, k - 1);
      DrawnIsKnown(h, k - 1);
      RegistryExtends(h, k - 1, k);
      RegisteredInMore(Registry(h[..k - 1]), Registry(h[..k]), Version(sha, h, k - 1));
      ApplyStaysRegistered(Registry(h[..k]), sha, Version(sha, h, k - 1), h[k - 1]);
    }
  }

  /** Two versions that store the same id store it in the same table, for the same tenant. */
  lemma OneRowForEachId(sha: Sha512, h: seq<Tx>, j: nat, k: nat, t: Table, u: Table, i: Uuid)
    requires Fresh(h) && j <= |h| && k <= |h|
    requires i in Ids(Version(sha, h, j), t) && i in Ids(Version(sha, h, k), u)
    ensures t == u && MasterOf(Version(sha, h, j), t, i) == MasterOf(Version(sha, h, k), u, i)
  {
    EveryVersionIsRegistered(sha, h, j);
    EveryVersionIsRegistered(sha, h, k);
    RegisteredRow(Registry(h[..j]), Version(sha, h, j), t, i);
    RegisteredRow(Registry(h[..k]), Version(sha, h, k), u, i);
    RegistryExtends(h, j, |h|);
    RegistryExtends(h, k, |h|);
  }

  /** A drawn id is in no table yet. */
  lemma NewIdIsUnused(sha: Sha512, h: seq<Tx>, k: nat, t: Table)
    requires Fresh(h) && k < |h| && Draw(h[k]).Some?
    ensures Draw(h[k]).value.id !in Ids(Version(sha, h, k), t)
  {
    EveryVersionIsRegistered(sha, h, k);
    if Draw(h[k]).value.id in Ids(Version(sha, h, k), t) {
      RegisteredRow(Registry(h[..k]), Version(sha, h, k), t, Draw(h[k]).value.id);
    }
  }

  lemma RegisteredWithout(origins: Origins, db: Db, i: Uuid)
    requires Registered(origins, db) && forall t :: i !in Ids(db, t)
    ensures Registered(origins - {i}, db)
  {
    assert i !in Ids(db, Users) && i !in Ids(db, Templates) && i !in Ids(db, TemplateDrafts);
    assert i !in Ids(db, Recipients) && i !in Ids(db, RecipientDrafts);
    assert i !in Ids(db, Groups) && i !in Ids(db, GroupDrafts);
    assert i !in Ids(db, Batches) && i !in Ids(db, Notifications);
  }

  /** An id that is stored nowhere and is not drawn now is not stored in the next version either. */
  lemma StaysAbsent(origins: Origins, sha: Sha512, db: Db, tx: Tx, t: Table, i: Uuid)
    requires Registered(origins, db) && forall u :: i !in Ids(db, u)
    requires DrawKnown(origins - {i}, tx)
    ensures i !in Ids(Apply(sha, db, tx).db, t)
  {
    RegisteredWithout(origins, db, i);
    ApplyStaysRegistered(origins - {i}, sha, db, tx);
    if i in Ids(Apply(sha, db, tx).db, t) {
      RegisteredRow(origins - {i}, Apply(sha, db, tx).db, t, i);
    }
  }

  lemma StoredInOneTable(sha: Sha512, h: seq<Tx>, k: nat, t: Table, i: Uuid)
    requires Fresh(h) && k < |h| && i !in Ids(Version(sha, h, k), t) && i in Ids(Version(sha, h, k + 1), t)
    ensures forall u :: i !in Ids(Version(sha, h, k), u)
  {
    forall u
      ensures i !in Ids(Version(sha, h, k), u)
    {
      if i in Ids(Version(sha, h, k), u) { OneRowForEachId(sha, h, k, k + 1, u, t, i); }
    }
  }

  lemma NotDrawnAgain(h: seq<Tx>, k: nat, i: Uuid)
    requires Fresh(h) && k < |h| && i in Registry(h[..k])
    ensures DrawKnown(Registry(h[..k + 1]) - {i}, h[k])
  {
    DrawnIsKnown(h, k);
  }

  lemma NoReturnInOneStep(sha: Sha512, h: seq<Tx>, j: nat, k: nat, t: Table, i: Uuid)
    requires Fresh(h) && j <= k < |h| && i in Registry(h[..j])
    requires i !in Ids(Version(sha, h, k), t)
    ensures i !in Ids(Version(sha, h, k + 1), t)
  {
    RegistryGrows(h, j, k, i);
    if i in Ids(Version(sha, h, k + 1), t) {
      StoredInOneTable(sha, h, k, t, i);
      AbsentStaysAbsent(sha, h, k, t, i);
    }
  }

  lemma AbsentStaysAbsent(sha: Sha512, h: seq<Tx>, k: nat, t: Table, i: Uuid)
    requires Fresh(h) && k < |h| && i in Registry(h[..k])
    requires forall u :: i !in Ids(Version(sha, h, k), u)
    ensures i !in Ids(Version(sha, h, k + 1), t)
  {
    RegistryExtends(h, k, k + 1);
    EveryVersionIsRegistered(sha, h, k);
    RegisteredInMore(Registry(h[..k]), Registry(h[..k + 1]), Version(sha, h, k));
    NotDrawnAgain(h, k, i);
    VersionStep(sha, h, k);
    StaysAbsent(Registry(h[..k + 1]), sha, Version(sha, h, k), h[k], t, i);
  }

  /** A row that is not stored, though its id was drawn, is never stored again. */
  lemma {:induction false} NeverReturns(sha: Sha512, h: seq<Tx>, j: nat, k: nat, t: Table, i: Uuid)
    requires Fresh(h) && j <= k <= |h| && i in Registry(h[..j])
    requires i !in Ids(Version(sha, h, j), t)
    ensures i !in Ids(Version(sha, h, k), t)
    decreases k - j
  {
    if j < k {
      NoReturnInOneStep(sha, h, j, j, t, i);
      RegistryGrows(h, j, j + 1, i);
      NeverReturns(sha, h, j + 1, k, t, i);
    }
  }

  lemma StoredIsRegistered(sha: Sha512, h: seq<Tx>, i: nat, t: Table, id: Uuid)
    requires Fresh(h) && i <= |h| && id in Ids(Version(sha, h, i), t)
    ensures id in Registry(h[..i])
  {
    EveryVersionIsRegistered(sha, h, i);
    RegisteredRow(Registry(h[..i]), Version(sha, h, i), t, id);
  }

  /** A deleted row is never stored again. */
  lemma DeletedNeverReturns(sha: Sha512, h: seq<Tx>, j: nat, k: nat, t: Table, i: Uuid)
    requires Fresh(h) && j < k <= |h|
    requires i in Ids(Version(sha, h, j), t) && i !in Ids(Version(sha, h, j + 1), t)
    ensures i !in Ids(Version(sha, h, k), t)
  {
    EveryVersionIsRegistered(sha, h, j);
    RegisteredRow(Registry(h[..j]), Version(sha, h, j), t, i);
    RegistryGrows(h, j, j + 1, i);
    NeverReturns(sha, h, j + 1, k, t, i);
  }
}
