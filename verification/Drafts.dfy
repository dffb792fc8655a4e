/** The life of a draft over whole histories: from its creation through its confirmation. */
module Drafts {
  import opened Prelude
  import opened Tables
  import opened Cascade
  import opened Deletions
  import opened Requests
  import opened RequestEffects
  import opened History
  import opened Footprints
  import opened SchemaIntegrity
  import opened Identity
  import opened GroupManagement

  // ----- Recipient drafts -----

  /** The transaction creates this recipient draft. */
  ghost predicate CreatesRecipientDraft(tx: Tx, draft: Uuid, row: RecipientRow) {
    exists data ::
      tx == OnRecipient(CreateRecipientTx(row.master, draft, data)) && RecipientColumns(row, data, row.master)
  }

  lemma RecipientDraftStep(db: Db, tx: RecipientTx, draft: Uuid)
    requires draft in ApplyRecipient(db, tx).db.recipientDrafts
    ensures var row := ApplyRecipient(db, tx).db.recipientDrafts[draft];
      || (draft in db.recipientDrafts && db.recipientDrafts[draft] == row)
      || (CreatesRecipientDraft(OnRecipient(tx), draft, row) && ApplyRecipient(db, tx).reply.Ok?)
  {
    match tx
    case CreateRecipientTx(user, id, data) =>
      var next := CreateRecipient(db, user, id, data).db;
      if next != db {
        assert next.recipientDrafts == db.recipientDrafts[id := RecipientRowOf(data, user)];
      }
    case ConfirmRecipientTx(user, d, id) =>
      var next := ConfirmRecipient(db, user, d, id).db;
      assert next.recipientDrafts == db.recipientDrafts || next.recipientDrafts == db.recipientDrafts - {d};
    case ModifyRecipientTx(user, target, data) =>
      ModifyRecipientFootprint(db, user, target, data);
    case DeleteRecipientTx(user, target) =>
      DeletingARecipient(db, target);
  }

  lemma OthersDropRecipientDrafts(sha: Sha512, db: Db, tx: Tx, draft: Uuid)
    requires !tx.OnRecipient? && draft in Apply(sha, db, tx).db.recipientDrafts
    ensures draft in db.recipientDrafts && db.recipientDrafts[draft] == Apply(sha, db, tx).db.recipientDrafts[draft]
  {
    match tx
    case OnUser(t) => UsersDropRecipientDrafts(sha, db, t, draft);
    case OnTemplate(t) => TemplateFootprint(db, t);
    case OnGroup(t) => GroupFootprint(db, t);
    case OnNotification(t) => NotificationFootprint(db, t);
    case OnContact(t) => ContactFootprint(db, t);
  }

  lemma UsersDropRecipientDrafts(sha: Sha512, db: Db, tx: UserTx, draft: Uuid)
    requires draft in ApplyUser(sha, db, tx).db.recipientDrafts
    ensures draft in db.recipientDrafts && db.recipientDrafts[draft] == ApplyUser(sha, db, tx).db.recipientDrafts[draft]
  {
    if !tx.DeleteUserTx? { UserFootprint(sha, db, tx); }
  }

  /** Every stored recipient draft is exactly what some committed Create has put there. */
  lemma {:induction false} RecipientDraftHasACreation(sha: Sha512, h: seq<Tx>, k: nat, draft: Uuid) returns (i: nat)
    requires k <= |h| && draft in Version(sha, h, k).recipientDrafts
    ensures i < k && CreatesRecipientDraft(h[i], draft, Version(sha, h, k).recipientDrafts[draft])
    ensures ReplyAt(sha, h, i).Ok?
    decreases k
  {
    VersionStep(sha, h, k - 1);
    var before, tx := Version(sha, h, k - 1), h[k - 1];
    if tx.OnRecipient? {
      RecipientDraftStep(before, tx.recipient, draft);
      if CreatesRecipientDraft(tx, draft, Version(sha, h, k).recipientDrafts[draft]) && ReplyAt(sha, h, k - 1).Ok? {
        return k - 1;
      }
    } else {
      OthersDropRecipientDrafts(sha, before, tx, draft);
    }
    i := RecipientDraftHasACreation(sha, h, k - 1, draft);
  }

  /** A committed confirmation moves one row from the drafts to the recipients. */
  lemma ConfirmRecipientMovesTheDraft(db: Db, user: Uuid, draft: Uuid, id: Uuid)
    requires ConfirmRecipient(db, user, draft, id).reply.Ok?
    ensures var next := ConfirmRecipient(db, user, draft, id).db;
      && draft in db.recipientDrafts && db.recipientDrafts[draft].master == user
      && id !in db.recipients
      && next == db.(recipients := db.recipients[id := db.recipientDrafts[draft]],
                     recipientDrafts := db.recipientDrafts - {draft})
      && |next.recipientDrafts| + |next.recipients| == |db.recipientDrafts| + |db.recipients|
  {
    var next := ConfirmRecipient(db, user, draft, id).db;
    SizeAfterRemoval(db.recipientDrafts, draft);
    SizeAfterInsertion(db.recipients, id, db.recipientDrafts[draft]);
  }

  lemma SizeAfterRemoval<R>(table: map<Uuid, R>, i: Uuid)
    requires i in table
    ensures |table - {i}| == |table| - 1
  {
    assert (table - {i}).Keys == table.Keys - {i};
    assert |table| == |table.Keys| && |table - {i}| == |(table - {i}).Keys|;
  }

  lemma SizeAfterInsertion<R>(table: map<Uuid, R>, i: Uuid, row: R)
    requires i !in table
    ensures |table[i := row]| == |table| + 1
  {
    assert table[i := row].Keys == table.Keys + {i};
    assert |table| == |table.Keys| && |table[i := row]| == |table[i := row].Keys|;
  }

  /** The confirmed recipient carries exactly the data that an earlier Create of the same user gave. */
  lemma ConfirmedRecipientIsTheDraft(sha: Sha512, h: seq<Tx>, k: nat, user: Uuid, draft: Uuid, id: Uuid)
    returns (i: nat, data: RecipientData)
    requires k < |h| && h[k] == OnRecipient(ConfirmRecipientTx(user, draft, id)) && ReplyAt(sha, h, k).Ok?
    ensures i < k && h[i] == OnRecipient(CreateRecipientTx(user, draft, data)) && ReplyAt(sha, h, i).Ok?
    ensures id in Version(sha, h, k + 1).recipients
    ensures RecipientColumns(Version(sha, h, k + 1).recipients[id], data, user)
    ensures ReplyAt(sha, h, k) == Ok(OneRecipient(id, Version(sha, h, k + 1).recipients[id]))
  {
    var db := Version(sha, h, k);
    ConfirmRecipientMovesTheDraft(db, user, draft, id);
    VersionStep(sha, h, k);
    i := RecipientDraftHasACreation(sha, h, k, draft);
    var row := db.recipientDrafts[draft];
    data :| h[i] == OnRecipient(CreateRecipientTx(row.master, draft, data)) && RecipientColumns(row, data, row.master);
  }

  /** A recipient draft is confirmed at most once: every later attempt does not find it. */
  lemma RecipientDraftConfirmsOnce(
    sha: Sha512, h: seq<Tx>, j: nat, k: nat, user: Uuid, other: Uuid, draft: Uuid, id: Uuid, again: Uuid)
    requires Fresh(h) && j < k < |h|
    requires h[j] == OnRecipient(ConfirmRecipientTx(user, draft, id)) && ReplyAt(sha, h, j).Ok?
    requires h[k] == OnRecipient(ConfirmRecipientTx(other, draft, again))
    ensures ReplyAt(sha, h, k) == Err(DraftNotFound) && Version(sha, h, k + 1) == Version(sha, h, k)
  {
    RecipientDraftIsUsedUp(sha, h, j, user, draft, id);
    DeletedNeverReturns(sha, h, j, k, RecipientDrafts, draft);
    VersionStep(sha, h, k);
  }

  lemma RecipientDraftIsUsedUp(sha: Sha512, h: seq<Tx>, j: nat, user: Uuid, draft: Uuid, id: Uuid)
    requires j < |h| && h[j] == OnRecipient(ConfirmRecipientTx(user, draft, id)) && ReplyAt(sha, h, j).Ok?
    ensures draft in Ids(Version(sha, h, j), RecipientDrafts) && draft !in Ids(Version(sha, h, j + 1), RecipientDrafts)
  {
    ConfirmRecipientMovesTheDraft(Version(sha, h, j), user, draft, id);
    VersionStep(sha, h, j);
  }

  // ----- Template drafts -----

  /** The transaction creates this template draft. */
  ghost predicate CreatesTemplateDraft(tx: Tx, draft: Uuid, row: TemplateRow) {
    tx == OnTemplate(CreateTemplateTx(row.master, draft, TemplateData(row.name, row.messageText)))
  }

  lemma TemplateDraftStep(db: Db, tx: TemplateTx, draft: Uuid)
    requires draft in ApplyTemplate(db, tx).db.templateDrafts
    ensures var row := ApplyTemplate(db, tx).db.templateDrafts[draft];
      || (draft in db.templateDrafts && db.templateDrafts[draft] == row)
      || (CreatesTemplateDraft(OnTemplate(tx), draft, row) && ApplyTemplate(db, tx).reply.Ok?)
  {
    match tx
    case CreateTemplateTx(user, id, data) =>
      var next := CreateTemplate(db, user, id, data).db;
      if next != db {
        assert next.templateDrafts == db.templateDrafts[id := TemplateRow(data.name, data.messageText, user)];
      }
    case ConfirmTemplateTx(user, d, id) =>
      var next := ConfirmTemplate(db, user, d, id).db;
      assert next.templateDrafts == db.templateDrafts || next.templateDrafts == db.templateDrafts - {d};
    case ModifyTemplateTx(user, target, data) =>
      ModifyTemplateFootprint(db, user, target, data);
    case DeleteTemplateTx(user, target) =>
      DeletingATemplate(db, target);
  }

  lemma GroupsDropTemplateDrafts(db: Db, tx: GroupTx, draft: Uuid)
    requires draft in ApplyGroup(db, tx).db.templateDrafts
    ensures draft in db.templateDrafts && db.templateDrafts[draft] == ApplyGroup(db, tx).db.templateDrafts[draft]
  {
    match tx
    case ConfirmGroupTx(user, d, id) =>
      var next := ConfirmGroup(db, user, d, id).db;
      assert next.templateDrafts == db.templateDrafts || next.templateDrafts == db.templateDrafts - {d};
    case CreateGroupTx(user, id, data) => CreateGroupFootprint(db, user, id, data);
    case ModifyGroupTx(user, g, data) => ModifyGroupFootprint(db, user, g, data);
    case DeleteGroupTx(user, g) => DeletingAGroup(db, g);
    case AddRecipientTx(user, g, r) => AddRecipientFootprint(db, user, g, r);
    case RemoveRecipientTx(user, g, r) => RemoveRecipientFootprint(db, user, g, r);
  }

  lemma UsersDropTemplateDrafts(sha: Sha512, db: Db, tx: UserTx, draft: Uuid)
    requires draft in ApplyUser(sha, db, tx).db.templateDrafts
    ensures draft in db.templateDrafts && db.templateDrafts[draft] == ApplyUser(sha, db, tx).db.templateDrafts[draft]
  {
    if !tx.DeleteUserTx? { UserFootprint(sha, db, tx); }
  }

  lemma OthersDropTemplateDrafts(sha: Sha512, db: Db, tx: Tx, draft: Uuid)
    requires !tx.OnTemplate? && draft in Apply(sha, db, tx).db.templateDrafts
    ensures draft in db.templateDrafts && db.templateDrafts[draft] == Apply(sha, db, tx).db.templateDrafts[draft]
  {
    match tx
    case OnUser(t) => UsersDropTemplateDrafts(sha, db, t, draft);
    case OnRecipient(t) => RecipientFootprint(db, t);
    case OnGroup(t) => GroupsDropTemplateDrafts(db, t, draft);
    case OnNotification(t) => NotificationFootprint(db, t);
    case OnContact(t) => ContactFootprint(db, t);
  }

  /** Every stored template draft is exactly what some committed Create has put there. */
  lemma {:induction false} TemplateDraftHasACreation(sha: Sha512, h: seq<Tx>, k: nat, draft: Uuid) returns (i: nat)
    requires k <= |h| && draft in Version(sha, h, k).templateDrafts
    ensures i < k && CreatesTemplateDraft(h[i], draft, Version(sha, h, k).templateDrafts[draft])
    ensures ReplyAt(sha, h, i).Ok?
    decreases k
  {
    VersionStep(sha, h, k - 1);
    var before, tx := Version(sha, h, k - 1), h[k - 1];
    if tx.OnTemplate? {
      TemplateDraftStep(before, tx.template, draft);
      if CreatesTemplateDraft(tx, draft, Version(sha, h, k).templateDrafts[draft]) && ReplyAt(sha, h, k - 1).Ok? {
        return k - 1;
      }
    } else {
      OthersDropTemplateDrafts(sha, before, tx, draft);
    }
    i := TemplateDraftHasACreation(sha, h, k - 1, draft);
  }

  /** A committed confirmation moves one row from the drafts to the templates. */
  lemma ConfirmTemplateMovesTheDraft(db: Db, user: Uuid, draft: Uuid, id: Uuid)
    requires ConfirmTemplate(db, user, draft, id).reply.Ok?
    ensures var next := ConfirmTemplate(db, user, draft, id).db;
      && draft in db.templateDrafts && db.templateDrafts[draft].master == user
      && id !in db.templates
      && next == db.(templates := db.templates[id := db.templateDrafts[draft]],
                     templateDrafts := db.templateDrafts - {draft})
      && |next.templateDrafts| + |next.templates| == |db.templateDrafts| + |db.templates|
  {
    SizeAfterRemoval(db.templateDrafts, draft);
    SizeAfterInsertion(db.templates, id, db.templateDrafts[draft]);
  }

  /** The confirmed template carries exactly the data that an earlier Create of the same user gave. */
  lemma ConfirmedTemplateIsTheDraft(sha: Sha512, h: seq<Tx>, k: nat, user: Uuid, draft: Uuid, id: Uuid)
    returns (i: nat, data: TemplateData)
    requires k < |h| && h[k] == OnTemplate(ConfirmTemplateTx(user, draft, id)) && ReplyAt(sha, h, k).Ok?
    ensures i < k && h[i] == OnTemplate(CreateTemplateTx(user, draft, data)) && ReplyAt(sha, h, i).Ok?
    ensures id in Version(sha, h, k + 1).templates
    ensures Version(sha, h, k + 1).templates[id] == TemplateRow(data.name, data.messageText, user)
    ensures ReplyAt(sha, h, k) == Ok(OneTemplate(id, TemplateRow(data.name, data.messageText, user)))
  {
    var db := Version(sha, h, k);
    ConfirmTemplateMovesTheDraft(db, user, draft, id);
    VersionStep(sha, h, k);
    i := TemplateDraftHasACreation(sha, h, k, draft);
    data := TemplateData(db.templateDrafts[draft].name, db.templateDrafts[draft].messageText);
  }

  /** A template draft is confirmed at most once: every later attempt does not find it. */
  lemma TemplateDraftConfirmsOnce(
    sha: Sha512, h: seq<Tx>, j: nat, k: nat, user: Uuid, other: Uuid, draft: Uuid, id: Uuid, again: Uuid)
    requires Fresh(h) && j < k < |h|
    requires h[j] == OnTemplate(ConfirmTemplateTx(user, draft, id)) && ReplyAt(sha, h, j).Ok?
    requires h[k] == OnTemplate(ConfirmTemplateTx(other, draft, again))
    ensures ReplyAt(sha, h, k) == Err(DraftNotFound) && Version(sha, h, k + 1) == Version(sha, h, k)
  {
    TemplateDraftIsUsedUp(sha, h, j, user, draft, id);
    DeletedNeverReturns(sha, h, j, k, TemplateDrafts, draft);
    VersionStep(sha, h, k);
  }

  lemma TemplateDraftIsUsedUp(sha: Sha512, h: seq<Tx>, j: nat, user: Uuid, draft: Uuid, id: Uuid)
    requires j < |h| && h[j] == OnTemplate(ConfirmTemplateTx(user, draft, id)) && ReplyAt(sha, h, j).Ok?
    ensures draft in Ids(Version(sha, h, j), TemplateDrafts) && draft !in Ids(Version(sha, h, j + 1), TemplateDrafts)
  {
    ConfirmTemplateMovesTheDraft(Version(sha, h, j), user, draft, id);
    VersionStep(sha, h, j);
  }

  // ----- Group drafts -----

  /** A group draft keeps its row, except that a template that is deleted disappears from it. */
  ghost predicate DraftKept(db: Db, next: Db, draft: Uuid)
    requires draft in db.groupDrafts
  {
    var key := db.groupDrafts[draft].template;
    && draft in next.groupDrafts
    && next.groupDrafts[draft] == db.groupDrafts[draft].(template :=
         if key.Some? && key.value in db.templates && key.value !in next.templates then None else key)
  }

  lemma UsersKeepGroupDraft(sha: Sha512, db: Db, tx: UserTx, draft: Uuid)
    requires draft in db.groupDrafts && tx != DeleteUserTx(db.groupDrafts[draft].master)
    ensures DraftKept(db, ApplyUser(sha, db, tx).db, draft)
  {
    if tx.DeleteUserTx? {
      var gone := Doomed(db, {Row(Users, tx.user)});
      DoomedByUser(db, tx.user);
      KeepOthersGroupDrafts(db, gone, tx.user);
      KeepOthersTemplates(db, gone, tx.user);
    } else {
      UserFootprint(sha, db, tx);
    }
  }

  lemma TemplatesKeepGroupDraft(db: Db, tx: TemplateTx, draft: Uuid)
    requires draft in db.groupDrafts
    ensures DraftKept(db, ApplyTemplate(db, tx).db, draft)
  {
    if tx.DeleteTemplateTx? {
      DeletingATemplate(db, tx.target);
    } else {
      TemplateEditsLeaveGroups(db, tx);
    }
  }

  lemma GroupsKeepGroupDraft(db: Db, tx: GroupTx, draft: Uuid)
    requires draft in db.groupDrafts
    ensures DraftKept(db, ApplyGroup(db, tx).db, draft)
  {
    match tx
    case CreateGroupTx(user, id, data) =>
      var next := CreateGroup(db, user, id, data).db;
      if next != db { assert id !in db.groupDrafts && next.groupDrafts == db.groupDrafts[id := next.groupDrafts[id]]; }
    case ConfirmGroupTx(user, d, id) => ConfirmGroupFootprint(db, user, d, id);
    case ModifyGroupTx(user, g, data) => ModifyGroupFootprint(db, user, g, data);
    case DeleteGroupTx(user, g) => DeletingAGroup(db, g);
    case AddRecipientTx(user, g, r) => AddRecipientFootprint(db, user, g, r);
    case RemoveRecipientTx(user, g, r) => RemoveRecipientFootprint(db, user, g, r);
  }

  /** Nothing but the deletion of its user removes a group draft, a confirmation least of all. */
  lemma GroupDraftStays(sha: Sha512, db: Db, tx: Tx, draft: Uuid)
    requires draft in db.groupDrafts && tx != OnUser(DeleteUserTx(db.groupDrafts[draft].master))
    ensures DraftKept(db, Apply(sha, db, tx).db, draft)
  {
    match tx
    case OnUser(t) => UsersKeepGroupDraft(sha, db, t, draft);
    case OnTemplate(t) => TemplatesKeepGroupDraft(db, t, draft);
    case OnRecipient(t) => RecipientFootprint(db, t);
    case OnGroup(t) => GroupsKeepGroupDraft(db, t, draft);
    case OnNotification(t) => NotificationFootprint(db, t);
    case OnContact(t) => ContactFootprint(db, t);
  }

  /** The group that a draft created with this data confirms to in this version. */
  function GroupOfDraft(db: Db, data: GroupData, user: Uuid): GroupRow {
    GroupRow(data.name, data.active, user, Remaining(db.templates, TemplateKey(data.template)))
  }

  lemma CreatedGroupDraft(db: Db, user: Uuid, id: Uuid, data: GroupData)
    requires CreateGroup(db, user, id, data).reply.Ok?
    ensures var next := CreateGroup(db, user, id, data).db;
      && next == db.(groupDrafts := db.groupDrafts[id := GroupOfDraft(db, data, user)])
      && (data.template.TemplateId? ==> data.template.id in db.templates)
  {
  }

  /** The draft of step i is stored in version k, with the template given to it unless that was deleted. */
  ghost predicate DraftIntact(db: Db, draft: Uuid, data: GroupData, user: Uuid) {
    draft in db.groupDrafts && db.groupDrafts[draft] == GroupOfDraft(db, data, user)
  }

  lemma DraftStaysIntact(sha: Sha512, h: seq<Tx>, i: nat, k: nat, draft: Uuid, data: GroupData, user: Uuid)
    requires Fresh(h) && i <= k < |h| && h[k] != OnUser(DeleteUserTx(user))
    requires DraftIntact(Version(sha, h, k), draft, data, user)
    requires data.template.TemplateId? ==> data.template.id in Version(sha, h, i).templates
    ensures DraftIntact(Version(sha, h, k + 1), draft, data, user)
  {
    var db, next := Version(sha, h, k), Version(sha, h, k + 1);
    VersionStep(sha, h, k);
    GroupDraftStays(sha, db, h[k], draft);
    if data.template.TemplateId? && data.template.id !in db.templates {
      StoredIsRegistered(sha, h, i, Templates, data.template.id);
      NoReturnInOneStep(sha, h, i, k, Templates, data.template.id);
      assert data.template.id !in Ids(next, Templates);
    }
  }

  lemma DraftStartsIntact(sha: Sha512, h: seq<Tx>, i: nat, user: Uuid, draft: Uuid, data: GroupData)
    requires i < |h| && h[i] == OnGroup(CreateGroupTx(user, draft, data)) && ReplyAt(sha, h, i).Ok?
    ensures DraftIntact(Version(sha, h, i + 1), draft, data, user)
    ensures data.template.TemplateId? ==> data.template.id in Version(sha, h, i).templates
  {
    VersionStep(sha, h, i);
    CreatedGroupDraft(Version(sha, h, i), user, draft, data);
  }

  /** A committed group draft survives everything but the deletion of its user. */
  lemma {:induction false} GroupDraftSurvives(
    sha: Sha512, h: seq<Tx>, i: nat, k: nat, user: Uuid, draft: Uuid, data: GroupData)
    requires Fresh(h) && i < k <= |h|
    requires h[i] == OnGroup(CreateGroupTx(user, draft, data)) && ReplyAt(sha, h, i).Ok?
    requires forall j :: i < j < k ==> h[j] != OnUser(DeleteUserTx(user))
    ensures DraftIntact(Version(sha, h, k), draft, data, user)
    decreases k
  {
    DraftStartsIntact(sha, h, i, user, draft, data);
    if i + 1 < k {
      GroupDraftSurvives(sha, h, i, k - 1, user, draft, data);
      DraftStaysIntact(sha, h, i, k - 1, draft, data, user);
    }
  }

  /** A group confirmation never violates a key: it fails exactly when the user has no such draft. */
  lemma ConfirmGroupNeedsOnlyItsDraft(sha: Sha512, h: seq<Tx>, k: nat, user: Uuid, draft: Uuid, id: Uuid)
    requires Fresh(h) && k < |h| && h[k] == OnGroup(ConfirmGroupTx(user, draft, id))
    ensures ReplyAt(sha, h, k) ==
      if OwnsGroupDraft(Version(sha, h, k), user, draft)
      then Ok(OneGroup(id, Version(sha, h, k).groupDrafts[draft])) else Err(DraftNotFound)
  {
    var db := Version(sha, h, k);
    EveryStateHasIntegrity(sha, h[..k]);
    NewIdIsUnused(sha, h, k, Groups);
    if OwnsGroupDraft(db, user, draft) {
      assert GroupReferences(db.groupDrafts[draft], db.users, db.templates);
    }
  }

  /** A confirmation of a group leaves the draft, and deletes no template draft either. */
  lemma ConfirmGroupLeavesTheDrafts(sha: Sha512, h: seq<Tx>, k: nat, user: Uuid, draft: Uuid, id: Uuid)
    requires Fresh(h) && k < |h| && h[k] == OnGroup(ConfirmGroupTx(user, draft, id))
    requires ReplyAt(sha, h, k).Ok?
    ensures var db := Version(sha, h, k);
      && draft in db.groupDrafts
      && Version(sha, h, k + 1) == db.(groups := db.groups[id := db.groupDrafts[draft]])
  {
    var db := Version(sha, h, k);
    if draft in Ids(db, TemplateDrafts) {
      OneRowForEachId(sha, h, k, k, TemplateDrafts, GroupDrafts, draft);
    }
    VersionStep(sha, h, k);
  }

  /** A group that has just been confirmed has no members, so GetRecipients fails for it. */
  lemma ConfirmedGroupIsEmpty(sha: Sha512, h: seq<Tx>, k: nat, user: Uuid, draft: Uuid, id: Uuid)
    requires Fresh(h) && k < |h| && h[k] == OnGroup(ConfirmGroupTx(user, draft, id))
    requires ReplyAt(sha, h, k).Ok?
    ensures OwnsGroup(Version(sha, h, k + 1), user, id)
    ensures MembershipsIn(Version(sha, h, k + 1), id) == {}
  {
    var db := Version(sha, h, k);
    NewIdIsUnused(sha, h, k, Groups);
    EveryStateHasIntegrity(sha, h[..k]);
    ConfirmGroupLeavesTheDrafts(sha, h, k, user, draft, id);
    ConfirmGroupNeedsOnlyItsDraft(sha, h, k, user, draft, id);
    forall m | m in db.memberships
      ensures m.group != id
    {
      assert MembershipReferences(m, db.recipients, db.groups);
    }
  }

  /** Create ends in the empty optional exactly without a template id, with a new id, for a user who is
      not stored. */
  lemma EmptyOptionalExactly(db: Db, user: Uuid, id: Uuid, data: GroupData)
    ensures CreateGroup(db, user, id, data).reply == Err(BadOptionalAccess) <==>
      data.template.NoTemplate? && id !in db.groupDrafts && user !in db.users
  {
  }

  /** Step k has stored the group that a draft with this data confirms to. */
  ghost predicate ConfirmedAt(sha: Sha512, h: seq<Tx>, k: nat, id: Uuid, data: GroupData, user: Uuid) {
    && k < |h|
    && ReplyAt(sha, h, k) == Ok(OneGroup(id, GroupOfDraft(Version(sha, h, k), data, user)))
    && id in Version(sha, h, k + 1).groups
    && Version(sha, h, k + 1).groups[id] == GroupOfDraft(Version(sha, h, k), data, user)
  }

  /** Whatever happens between the draft and its confirmation, short of the deletion of its user: the
      confirmation succeeds, and the group has the template given at its creation if that is still
      stored, and otherwise none. */
  lemma GroupDraftAlwaysConfirms(
    sha: Sha512, h: seq<Tx>, i: nat, k: nat, user: Uuid, draft: Uuid, data: GroupData, id: Uuid)
    requires Fresh(h) && i < k < |h|
    requires h[i] == OnGroup(CreateGroupTx(user, draft, data)) && ReplyAt(sha, h, i).Ok?
    requires h[k] == OnGroup(ConfirmGroupTx(user, draft, id))
    requires forall j :: i < j < k ==> h[j] != OnUser(DeleteUserTx(user))
    ensures ConfirmedAt(sha, h, k, id, data, user)
  {
    GroupDraftSurvives(sha, h, i, k, user, draft, data);
    ConfirmGroupNeedsOnlyItsDraft(sha, h, k, user, draft, id);
    ConfirmGroupLeavesTheDrafts(sha, h, k, user, draft, id);
  }

  /** Confirming one group draft n times stores n distinct groups, each as the draft says. */
  lemma ManyGroupsFromOneDraft(
    sha: Sha512, h: seq<Tx>, i: nat, user: Uuid, draft: Uuid, data: GroupData, at: seq<nat>, ids: seq<Uuid>)
    requires Fresh(h) && i < |h| && |at| == |ids|
    requires h[i] == OnGroup(CreateGroupTx(user, draft, data)) && ReplyAt(sha, h, i).Ok?
    requires forall j :: i < j < |h| ==> h[j] != OnUser(DeleteUserTx(user))
    requires forall n :: 0 <= n < |at| ==> i < at[n] < |h| && h[at[n]] == OnGroup(ConfirmGroupTx(user, draft, ids[n]))
    requires Distinct(at)
    ensures forall n :: 0 <= n < |at| ==> ConfirmedAt(sha, h, at[n], ids[n], data, user)
    ensures Distinct(ids)
  {
    forall n | 0 <= n < |at|
      ensures ConfirmedAt(sha, h, at[n], ids[n], data, user)
    {
      GroupDraftAlwaysConfirms(sha, h, i, at[n], user, draft, data, ids[n]);
    }
    forall m, n | 0 <= m < n < |at|
      ensures ids[m] != ids[n]
    {
      DrawnIdsDiffer(h, if at[m] < at[n] then at[m] else at[n], if at[m] < at[n] then at[n] else at[m]);
    }
  }

  lemma DrawnIdsDiffer(h: seq<Tx>, j: nat, k: nat)
    requires Fresh(h) && j < k < |h| && Draw(h[j]).Some? && Draw(h[k]).Some?
    ensures Draw(h[j]).value.id != Draw(h[k]).value.id
  {
    DrawnIsKnown(h, j);
    RegistryGrows(h, j + 1, k, Draw(h[j]).value.id);
  }
}
