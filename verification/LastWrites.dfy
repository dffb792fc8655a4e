/** What a stored row says is what its last committed write has said, over every history. */
module LastWrites {
  import opened Prelude
  import opened Tables
  import opened Requests
  import opened RequestEffects
  import opened History
  import opened Footprints
  import opened SchemaIntegrity
  import opened Identity
  import opened Drafts

  /** None of the steps after i and before k. */
  ghost predicate Untouched(hits: seq<bool>, i: nat, k: nat)
    requires k <= |hits|
  {
    forall n :: i < n < k ==> !hits[n]
  }

  /** The last hit before k, if there is one. */
  lemma {:induction false} LastHit(hits: seq<bool>, k: nat) returns (found: bool, i: nat)
    requires k <= |hits|
    ensures found ==> i < k && hits[i] && Untouched(hits, i, k)
    ensures !found ==> forall n :: 0 <= n < k ==> !hits[n]
    decreases k
  {
    if k == 0 || hits[k - 1] {
      return k > 0, if k > 0 then k - 1 else 0;
    }
    found, i := LastHit(hits, k - 1);
  }

  // ----- Recipients -----

  /** The transaction asks to store or to delete this recipient. */
  predicate AimsAtRecipient(tx: Tx, r: Uuid) {
    match tx
    case OnRecipient(ConfirmRecipientTx(_, _, id)) => id == r
    case OnRecipient(ModifyRecipientTx(_, target, _)) => target == r
    case OnRecipient(DeleteRecipientTx(_, target)) => target == r
    case _ => false
  }

  /** The steps that have stored or deleted it. */
  function RecipientHits(sha: Sha512, h: seq<Tx>, r: Uuid): seq<bool> {
    seq(|h|, n requires 0 <= n < |h| => AimsAtRecipient(h[n], r) && ReplyAt(sha, h, n).Ok?)
  }

  lemma RecipientRequestsKeep(db: Db, tx: RecipientTx, r: Uuid)
    requires r in ApplyRecipient(db, tx).db.recipients
    requires AimsAtRecipient(OnRecipient(tx), r) ==> ApplyRecipient(db, tx).reply.Err?
    ensures r in db.recipients && ApplyRecipient(db, tx).db.recipients[r] == db.recipients[r]
  {
    match tx
    case CreateRecipientTx(user, id, data) => CreateRecipientFootprint(db, user, id, data);
    case ConfirmRecipientTx(user, draft, id) =>
      if ConfirmRecipient(db, user, draft, id).reply.Ok? { ConfirmRecipientMovesTheDraft(db, user, draft, id); }
    case ModifyRecipientTx(user, target, data) => ModifiedRecipient(db, user, target, data);
    case DeleteRecipientTx(user, target) => DeletedRecipient(db, user, target);
  }

  lemma UserRequestsKeepRecipient(sha: Sha512, db: Db, tx: UserTx, r: Uuid)
    requires r in ApplyUser(sha, db, tx).db.recipients
    ensures r in db.recipients && ApplyUser(sha, db, tx).db.recipients[r] == db.recipients[r]
  {
    if !tx.DeleteUserTx? { UserFootprint(sha, db, tx); }
  }

  lemma RecipientStays(sha: Sha512, db: Db, tx: Tx, r: Uuid)
    requires r in Apply(sha, db, tx).db.recipients
    requires AimsAtRecipient(tx, r) ==> Apply(sha, db, tx).reply.Err?
    ensures r in db.recipients && Apply(sha, db, tx).db.recipients[r] == db.recipients[r]
  {
    match tx
    case OnUser(t) => UserRequestsKeepRecipient(sha, db, t, r);
    case OnTemplate(t) => TemplateFootprint(db, t);
    case OnRecipient(t) => RecipientRequestsKeep(db, t, r);
    case OnGroup(t) => GroupFootprint(db, t);
    case OnNotification(t) => NotificationFootprint(db, t);
    case OnContact(t) => ContactFootprint(db, t);
  }

  /** Step i has stored this data for the recipient: as a modification, or as the confirmation of a draft
      that step j has created with it. */
  ghost predicate RecipientWrittenAt(sha: Sha512, h: seq<Tx>, i: nat, r: Uuid, data: RecipientData, user: Uuid) {
    && i < |h| && ReplyAt(sha, h, i).Ok?
    && (|| h[i] == OnRecipient(ModifyRecipientTx(user, r, data))
        || exists j, draft :: 0 <= j < i && RecipientDraftedAt(sha, h, j, draft, data, user)
             && h[i] == OnRecipient(ConfirmRecipientTx(user, draft, r)))
  }

  ghost predicate RecipientDraftedAt(sha: Sha512, h: seq<Tx>, j: nat, draft: Uuid, data: RecipientData, user: Uuid) {
    j < |h| && h[j] == OnRecipient(CreateRecipientTx(user, draft, data)) && ReplyAt(sha, h, j).Ok?
  }

  lemma RecipientJustWritten(sha: Sha512, h: seq<Tx>, i: nat, r: Uuid) returns (data: RecipientData, user: Uuid)
    requires i < |h| && RecipientHits(sha, h, r)[i] && r in Version(sha, h, i + 1).recipients
    ensures RecipientWrittenAt(sha, h, i, r, data, user)
    ensures RecipientColumns(Version(sha, h, i + 1).recipients[r], data, user)
  {
    var db, tx := Version(sha, h, i), h[i].recipient;
    VersionStep(sha, h, i);
    match tx
    case ConfirmRecipientTx(master, draft, id) =>
      var j;
      user := master;
      j, data := ConfirmedRecipientIsTheDraft(sha, h, i, user, draft, id);
      assert RecipientDraftedAt(sha, h, j, draft, data, user);
    case ModifyRecipientTx(master, target, given) =>
      ModifiedRecipient(db, master, target, given);
      data, user := given, master;
    case DeleteRecipientTx(master, target) =>
      DeletedRecipient(db, master, target);
      assert false;
  }

  lemma RecipientInNextVersion(sha: Sha512, h: seq<Tx>, k: nat, r: Uuid)
    requires k < |h| && r in Version(sha, h, k + 1).recipients
    requires !RecipientHits(sha, h, r)[k]
    ensures r in Version(sha, h, k).recipients
    ensures Version(sha, h, k + 1).recipients[r] == Version(sha, h, k).recipients[r]
  {
    VersionStep(sha, h, k);
    RecipientStays(sha, Version(sha, h, k), h[k], r);
  }

  lemma {:induction false} RecipientIsTheSame(sha: Sha512, h: seq<Tx>, i: nat, k: nat, r: Uuid)
    requires i <= k <= |h| && r in Version(sha, h, k).recipients
    requires forall n :: i <= n < k ==> !RecipientHits(sha, h, r)[n]
    ensures r in Version(sha, h, i).recipients
    ensures Version(sha, h, k).recipients[r] == Version(sha, h, i).recipients[r]
    decreases k - i
  {
    if i < k {
      RecipientIsTheSame(sha, h, i + 1, k, r);
      RecipientInNextVersion(sha, h, i, r);
    }
  }

  /** Every stored recipient carries, column by column, the data of its last committed write. */
  lemma RecipientIsLastWritten(sha: Sha512, h: seq<Tx>, k: nat, r: Uuid)
    returns (i: nat, data: RecipientData, user: Uuid)
    requires k <= |h| && r in Version(sha, h, k).recipients
    ensures i < k && RecipientWrittenAt(sha, h, i, r, data, user) && Untouched(RecipientHits(sha, h, r), i, k)
    ensures RecipientColumns(Version(sha, h, k).recipients[r], data, user)
  {
    var found;
    found, i := LastHit(RecipientHits(sha, h, r), k);
    RecipientIsTheSame(sha, h, if found then i + 1 else 0, k, r);
    if !found { NoRecipientAtFirst(sha, h, r); }
    data, user := RecipientJustWritten(sha, h, i, r);
  }

  lemma NoRecipientAtFirst(sha: Sha512, h: seq<Tx>, r: Uuid)
    ensures r !in Version(sha, h, 0).recipients
  {
  }

  // ----- Templates -----

  predicate AimsAtTemplate(tx: Tx, t: Uuid) {
    match tx
    case OnTemplate(ConfirmTemplateTx(_, _, id)) => id == t
    case OnTemplate(ModifyTemplateTx(_, target, _)) => target == t
    case OnTemplate(DeleteTemplateTx(_, target)) => target == t
    case _ => false
  }

  /** The steps that have stored or deleted it. */
  function TemplateHits(sha: Sha512, h: seq<Tx>, t: Uuid): seq<bool> {
    seq(|h|, n requires 0 <= n < |h| => AimsAtTemplate(h[n], t) && ReplyAt(sha, h, n).Ok?)
  }

  lemma TemplateRequestsKeep(db: Db, tx: TemplateTx, t: Uuid)
    requires t in ApplyTemplate(db, tx).db.templates
    requires AimsAtTemplate(OnTemplate(tx), t) ==> ApplyTemplate(db, tx).reply.Err?
    ensures t in db.templates && ApplyTemplate(db, tx).db.templates[t] == db.templates[t]
  {
    match tx
    case CreateTemplateTx(user, id, data) => CreateTemplateFootprint(db, user, id, data);
    case ConfirmTemplateTx(user, draft, id) =>
      if ConfirmTemplate(db, user, draft, id).reply.Ok? { ConfirmTemplateMovesTheDraft(db, user, draft, id); }
    case ModifyTemplateTx(user, target, data) => ModifiedTemplate(db, user, target, data);
    case DeleteTemplateTx(user, target) => DeletedTemplate(db, user, target);
  }

  lemma UserRequestsKeepTemplate(sha: Sha512, db: Db, tx: UserTx, t: Uuid)
    requires t in ApplyUser(sha, db, tx).db.templates
    ensures t in db.templates && ApplyUser(sha, db, tx).db.templates[t] == db.templates[t]
  {
    if !tx.DeleteUserTx? { UserFootprint(sha, db, tx); }
  }

  lemma TemplateStays(sha: Sha512, db: Db, tx: Tx, t: Uuid)
    requires t in Apply(sha, db, tx).db.templates
    requires AimsAtTemplate(tx, t) ==> Apply(sha, db, tx).reply.Err?
    ensures t in db.templates && Apply(sha, db, tx).db.templates[t] == db.templates[t]
  {
    match tx
    case OnUser(u) => UserRequestsKeepTemplate(sha, db, u, t);
    case OnTemplate(u) => TemplateRequestsKeep(db, u, t);
    case OnRecipient(u) => RecipientFootprint(db, u);
    case OnGroup(u) => GroupFootprint(db, u);
    case OnNotification(u) => NotificationFootprint(db, u);
    case OnContact(u) => ContactFootprint(db, u);
  }

  ghost predicate TemplateWrittenAt(sha: Sha512, h: seq<Tx>, i: nat, t: Uuid, data: TemplateData, user: Uuid) {
    && i < |h| && ReplyAt(sha, h, i).Ok?
    && (|| h[i] == OnTemplate(ModifyTemplateTx(user, t, data))
        || exists j, draft :: 0 <= j < i && TemplateDraftedAt(sha, h, j, draft, data, user)
             && h[i] == OnTemplate(ConfirmTemplateTx(user, draft, t)))
  }

  ghost predicate TemplateDraftedAt(sha: Sha512, h: seq<Tx>, j: nat, draft: Uuid, data: TemplateData, user: Uuid) {
    j < |h| && h[j] == OnTemplate(CreateTemplateTx(user, draft, data)) && ReplyAt(sha, h, j).Ok?
  }

  lemma TemplateJustWritten(sha: Sha512, h: seq<Tx>, i: nat, t: Uuid) returns (data: TemplateData, user: Uuid)
    requires i < |h| && TemplateHits(sha, h, t)[i] && t in Version(sha, h, i + 1).templates
    ensures TemplateWrittenAt(sha, h, i, t, data, user)
    ensures TemplateColumns(Version(sha, h, i + 1).templates[t], data, user)
  {
    var db, tx := Version(sha, h, i), h[i].template;
    VersionStep(sha, h, i);
    match tx
    case ConfirmTemplateTx(master, draft, id) =>
      var j;
      user := master;
      j, data := ConfirmedTemplateIsTheDraft(sha, h, i, user, draft, id);
      assert TemplateDraftedAt(sha, h, j, draft, data, user);
    case ModifyTemplateTx(master, target, given) =>
      ModifiedTemplate(db, master, target, given);
      data, user := given, master;
    case DeleteTemplateTx(master, target) =>
      DeletedTemplate(db, master, target);
      assert false;
  }

  lemma TemplateInNextVersion(sha: Sha512, h: seq<Tx>, k: nat, t: Uuid)
    requires k < |h| && t in Version(sha, h, k + 1).templates
    requires !TemplateHits(sha, h, t)[k]
    ensures t in Version(sha, h, k).templates
    ensures Version(sha, h, k + 1).templates[t] == Version(sha, h, k).templates[t]
  {
    VersionStep(sha, h, k);
    TemplateStays(sha, Version(sha, h, k), h[k], t);
  }

  lemma {:induction false} TemplateIsTheSame(sha: Sha512, h: seq<Tx>, i: nat, k: nat, t: Uuid)
    requires i <= k <= |h| && t in Version(sha, h, k).templates
    requires forall n :: i <= n < k ==> !TemplateHits(sha, h, t)[n]
    ensures t in Version(sha, h, i).templates
    ensures Version(sha, h, k).templates[t] == Version(sha, h, i).templates[t]
    decreases k - i
  {
    if i < k {
      TemplateIsTheSame(sha, h, i + 1, k, t);
      TemplateInNextVersion(sha, h, i, t);
    }
  }

  /** Every stored template carries the data of its last committed write. */
  lemma TemplateIsLastWritten(sha: Sha512, h: seq<Tx>, k: nat, t: Uuid)
    returns (i: nat, data: TemplateData, user: Uuid)
    requires k <= |h| && t in Version(sha, h, k).templates
    ensures i < k && TemplateWrittenAt(sha, h, i, t, data, user) && Untouched(TemplateHits(sha, h, t), i, k)
    ensures TemplateColumns(Version(sha, h, k).templates[t], data, user)
  {
    var found;
    found, i := LastHit(TemplateHits(sha, h, t), k);
    TemplateIsTheSame(sha, h, if found then i + 1 else 0, k, t);
    if !found { NoTemplateAtFirst(sha, h, t); }
    data, user := TemplateJustWritten(sha, h, i, t);
  }

  lemma NoTemplateAtFirst(sha: Sha512, h: seq<Tx>, t: Uuid)
    ensures t !in Version(sha, h, 0).templates
  {
  }

  // ----- Groups and group drafts -----

  /** The row has the columns of the data, and its template as long as that is stored. */
  predicate GroupCarries(row: GroupRow, data: GroupData, user: Uuid, templates: map<Uuid, TemplateRow>) {
    && row.name == data.name
    && row.active == data.active
    && row.master == user
    && match data.template
       case TemplateId(t) => row.template == if t in templates then Some(t) else None
       case _ => row.template == None
  }

  /** The row is as before, but for a template that is not stored any more. */
  predicate GroupKept(
    before: map<Uuid, GroupRow>, after: map<Uuid, GroupRow>, templates: map<Uuid, TemplateRow>, g: Uuid)
    requires g in after
  {
    && g in before
    && after[g].name == before[g].name && after[g].active == before[g].active && after[g].master == before[g].master
    && after[g].template ==
         if before[g].template.Some? && before[g].template.value in templates then before[g].template else None
  }

  lemma UserRequestsKeepGroup(sha: Sha512, db: Db, tx: UserTx, g: Uuid)
    requires GroupKeys(db.groups, db.users, db.templates) && g in ApplyUser(sha, db, tx).db.groups
    ensures GroupKept(db.groups, ApplyUser(sha, db, tx).db.groups, ApplyUser(sha, db, tx).db.templates, g)
  {
    if !tx.DeleteUserTx? { UserFootprint(sha, db, tx); }
    assert g in db.groups && GroupReferences(db.groups[g], db.users, db.templates);
  }

  lemma TemplateRequestsKeepGroup(db: Db, tx: TemplateTx, g: Uuid)
    requires GroupKeys(db.groups, db.users, db.templates) && g in ApplyTemplate(db, tx).db.groups
    ensures GroupKept(db.groups, ApplyTemplate(db, tx).db.groups, ApplyTemplate(db, tx).db.templates, g)
  {
    if tx.DeleteTemplateTx? {
      DeletedTemplate(db, tx.user, tx.target);
    } else {
      TemplateEditsLeaveGroups(db, tx);
    }
    assert g in db.groups && GroupReferences(db.groups[g], db.users, db.templates);
  }

  predicate AimsAtGroup(tx: Tx, g: Uuid) {
    match tx
    case OnGroup(ConfirmGroupTx(_, _, id)) => id == g
    case OnGroup(ModifyGroupTx(_, target, _)) => target == g
    case OnGroup(DeleteGroupTx(_, target)) => target == g
    case _ => false
  }

  lemma GroupRequestsKeepGroup(db: Db, tx: GroupTx, g: Uuid)
    requires g in ApplyGroup(db, tx).db.groups
    requires AimsAtGroup(OnGroup(tx), g) ==> ApplyGroup(db, tx).reply.Err?
    ensures g in db.groups && ApplyGroup(db, tx).db.groups[g] == db.groups[g]
  {
    match tx
    case CreateGroupTx(user, id, data) => CreateGroupFootprint(db, user, id, data);
    case ConfirmGroupTx(user, draft, id) => ConfirmGroupAdds(db, user, draft, id);
    case ModifyGroupTx(user, target, data) => ModifiedGroup(db, user, target, data);
    case DeleteGroupTx(user, target) => DeletedGroup(db, user, target);
    case AddRecipientTx(user, target, member) => AddRecipientFootprint(db, user, target, member);
    case RemoveRecipientTx(user, target, member) => RemoveRecipientFootprint(db, user, target, member);
  }

  lemma ConfirmGroupAdds(db: Db, user: Uuid, draft: Uuid, id: Uuid)
    ensures ConfirmGroup(db, user, draft, id).reply.Err? ==> ConfirmGroup(db, user, draft, id).db == db
    ensures ConfirmGroup(db, user, draft, id).reply.Ok? ==>
      && draft in db.groupDrafts && db.groupDrafts[draft].master == user && id !in db.groups
      && ConfirmGroup(db, user, draft, id).db.groups == db.groups[id := db.groupDrafts[draft]]
      && ConfirmGroup(db, user, draft, id).db.templates == db.templates
  {
  }

  lemma GroupStays(sha: Sha512, db: Db, tx: Tx, g: Uuid)
    requires GroupKeys(db.groups, db.users, db.templates) && g in Apply(sha, db, tx).db.groups
    requires AimsAtGroup(tx, g) ==> Apply(sha, db, tx).reply.Err?
    ensures GroupKept(db.groups, Apply(sha, db, tx).db.groups, Apply(sha, db, tx).db.templates, g)
  {
    match tx
    case OnUser(t) => UserRequestsKeepGroup(sha, db, t, g);
    case OnTemplate(t) => TemplateRequestsKeepGroup(db, t, g);
    case OnRecipient(t) => RecipientFootprint(db, t); SameGroupKept(db, Apply(sha, db, tx).db, g);
    case OnGroup(t) =>
      GroupFootprint(db, t);
      GroupRequestsKeepGroup(db, t, g);
      SameGroupKept(db, Apply(sha, db, tx).db, g);
    case OnNotification(t) => NotificationFootprint(db, t); SameGroupKept(db, Apply(sha, db, tx).db, g);
    case OnContact(t) => ContactFootprint(db, t); SameGroupKept(db, Apply(sha, db, tx).db, g);
  }

  lemma SameGroupKept(db: Db, next: Db, g: Uuid)
    requires GroupKeys(db.groups, db.users, db.templates) && next.templates == db.templates
    requires g in next.groups && g in db.groups && next.groups[g] == db.groups[g]
    ensures GroupKept(db.groups, next.groups, next.templates, g)
  {
    assert GroupReferences(db.groups[g], db.users, db.templates);
  }

  // ----- Group drafts -----

  lemma UserRequestsKeepGroupDraft(sha: Sha512, db: Db, tx: UserTx, d: Uuid)
    requires GroupKeys(db.groupDrafts, db.users, db.templates) && d in ApplyUser(sha, db, tx).db.groupDrafts
    ensures GroupKept(db.groupDrafts, ApplyUser(sha, db, tx).db.groupDrafts, ApplyUser(sha, db, tx).db.templates, d)
  {
    if !tx.DeleteUserTx? { UserFootprint(sha, db, tx); }
    assert d in db.groupDrafts && GroupReferences(db.groupDrafts[d], db.users, db.templates);
  }

  lemma TemplateRequestsKeepGroupDraft(db: Db, tx: TemplateTx, d: Uuid)
    requires GroupKeys(db.groupDrafts, db.users, db.templates) && d in ApplyTemplate(db, tx).db.groupDrafts
    ensures GroupKept(db.groupDrafts, ApplyTemplate(db, tx).db.groupDrafts, ApplyTemplate(db, tx).db.templates, d)
  {
    if tx.DeleteTemplateTx? {
      DeletedTemplate(db, tx.user, tx.target);
    } else {
      TemplateEditsLeaveGroups(db, tx);
    }
    assert d in db.groupDrafts && GroupReferences(db.groupDrafts[d], db.users, db.templates);
  }

  predicate AimsAtGroupDraft(tx: Tx, d: Uuid) {
    match tx
    case OnGroup(CreateGroupTx(_, id, _)) => id == d
    case _ => false
  }

  lemma GroupRequestsKeepGroupDraft(db: Db, tx: GroupTx, d: Uuid)
    requires d in ApplyGroup(db, tx).db.groupDrafts
    requires AimsAtGroupDraft(OnGroup(tx), d) ==> ApplyGroup(db, tx).reply.Err?
    ensures d in db.groupDrafts && ApplyGroup(db, tx).db.groupDrafts[d] == db.groupDrafts[d]
  {
    match tx
    case CreateGroupTx(user, id, data) => CreatedGroup(db, user, id, data);
    case ConfirmGroupTx(user, draft, id) => ConfirmGroupFootprint(db, user, draft, id);
    case ModifyGroupTx(user, target, data) => ModifyGroupFootprint(db, user, target, data);
    case DeleteGroupTx(user, target) => DeletedGroup(db, user, target);
    case AddRecipientTx(user, target, member) => AddRecipientFootprint(db, user, target, member);
    case RemoveRecipientTx(user, target, member) => RemoveRecipientFootprint(db, user, target, member);
  }

  lemma SameGroupDraftKept(db: Db, next: Db, d: Uuid)
    requires GroupKeys(db.groupDrafts, db.users, db.templates) && next.templates == db.templates
    requires d in next.groupDrafts && d in db.groupDrafts && next.groupDrafts[d] == db.groupDrafts[d]
    ensures GroupKept(db.groupDrafts, next.groupDrafts, next.templates, d)
  {
    assert GroupReferences(db.groupDrafts[d], db.users, db.templates);
  }

  lemma GroupDraftRowStays(sha: Sha512, db: Db, tx: Tx, d: Uuid)
    requires GroupKeys(db.groupDrafts, db.users, db.templates) && d in Apply(sha, db, tx).db.groupDrafts
    requires AimsAtGroupDraft(tx, d) ==> Apply(sha, db, tx).reply.Err?
    ensures GroupKept(db.groupDrafts, Apply(sha, db, tx).db.groupDrafts, Apply(sha, db, tx).db.templates, d)
  {
    match tx
    case OnUser(t) => UserRequestsKeepGroupDraft(sha, db, t, d);
    case OnTemplate(t) => TemplateRequestsKeepGroupDraft(db, t, d);
    case OnRecipient(t) => RecipientFootprint(db, t); SameGroupDraftKept(db, Apply(sha, db, tx).db, d);
    case OnGroup(t) =>
      GroupFootprint(db, t);
      GroupRequestsKeepGroupDraft(db, t, d);
      SameGroupDraftKept(db, Apply(sha, db, tx).db, d);
    case OnNotification(t) => NotificationFootprint(db, t); SameGroupDraftKept(db, Apply(sha, db, tx).db, d);
    case OnContact(t) => ContactFootprint(db, t); SameGroupDraftKept(db, Apply(sha, db, tx).db, d);
  }

  // ----- Over histories -----

  /** A template id that was given at some step was drawn before it. */
  predicate TemplateDrawn(origins: Origins, data: GroupData) {
    data.template.TemplateId? ==> data.template.id in origins
  }

  lemma TemplateStaysDrawn(h: seq<Tx>, k: nat, data: GroupData)
    requires Fresh(h) && k < |h| && TemplateDrawn(Registry(h[..k]), data)
    ensures TemplateDrawn(Registry(h[..k + 1]), data)
  {
    if data.template.TemplateId? { RegistryGrows(h, k, k + 1, data.template.id); }
  }

  lemma GoneTemplateStaysGone(sha: Sha512, h: seq<Tx>, k: nat, data: GroupData)
    requires Fresh(h) && k < |h| && TemplateDrawn(Registry(h[..k]), data)
    ensures data.template.TemplateId? && data.template.id !in Version(sha, h, k).templates ==>
      data.template.id !in Version(sha, h, k + 1).templates
  {
    if data.template.TemplateId? && data.template.id !in Ids(Version(sha, h, k), Templates) {
      NoReturnInOneStep(sha, h, k, k, Templates, data.template.id);
      assert data.template.id !in Ids(Version(sha, h, k + 1), Templates);
    }
  }

  lemma CarriesOn(
    before: map<Uuid, GroupRow>, after: map<Uuid, GroupRow>, templates: map<Uuid, TemplateRow>,
    next: map<Uuid, TemplateRow>, g: Uuid, data: GroupData, user: Uuid)
    requires g in after && GroupKept(before, after, next, g) && GroupCarries(before[g], data, user, templates)
    requires data.template.TemplateId? && data.template.id !in templates ==> data.template.id !in next
    ensures GroupCarries(after[g], data, user, next)
  {
  }

  lemma UsableIsDrawn(sha: Sha512, h: seq<Tx>, i: nat, data: GroupData)
    requires Fresh(h) && i < |h| && TemplateUsable(Version(sha, h, i), data.template)
    ensures TemplateDrawn(Registry(h[..i + 1]), data)
  {
    if data.template.TemplateId? {
      StoredIsRegistered(sha, h, i, Templates, data.template.id);
      RegistryGrows(h, i, i + 1, data.template.id);
    }
  }

  ghost predicate GroupDraftedAt(sha: Sha512, h: seq<Tx>, j: nat, d: Uuid, data: GroupData, user: Uuid) {
    j < |h| && h[j] == OnGroup(CreateGroupTx(user, d, data)) && ReplyAt(sha, h, j).Ok?
  }

  function GroupDraftHits(sha: Sha512, h: seq<Tx>, d: Uuid): seq<bool> {
    seq(|h|, n requires 0 <= n < |h| => AimsAtGroupDraft(h[n], d) && ReplyAt(sha, h, n).Ok?)
  }

  lemma GroupDraftJustWritten(sha: Sha512, h: seq<Tx>, j: nat, d: Uuid) returns (data: GroupData, user: Uuid)
    requires Fresh(h) && j < |h| && GroupDraftHits(sha, h, d)[j] && d in Version(sha, h, j + 1).groupDrafts
    ensures GroupDraftedAt(sha, h, j, d, data, user) && TemplateDrawn(Registry(h[..j + 1]), data)
    ensures GroupCarries(Version(sha, h, j + 1).groupDrafts[d], data, user, Version(sha, h, j + 1).templates)
  {
    var db, tx := Version(sha, h, j), h[j].group;
    VersionStep(sha, h, j);
    data, user := tx.data, tx.user;
    CreatedGroup(db, user, d, data);
    UsableIsDrawn(sha, h, j, data);
  }

  lemma GroupDraftInNextVersion(sha: Sha512, h: seq<Tx>, k: nat, d: Uuid)
    requires k < |h| && d in Version(sha, h, k + 1).groupDrafts && !GroupDraftHits(sha, h, d)[k]
    ensures GroupKept(Version(sha, h, k).groupDrafts, Version(sha, h, k + 1).groupDrafts,
                      Version(sha, h, k + 1).templates, d)
  {
    VersionStep(sha, h, k);
    EveryStateHasIntegrity(sha, h[..k]);
    GroupDraftRowStays(sha, Version(sha, h, k), h[k], d);
  }

  lemma {:induction false} GroupDraftWasThere(sha: Sha512, h: seq<Tx>, i: nat, k: nat, d: Uuid)
    requires i <= k <= |h| && d in Version(sha, h, k).groupDrafts
    requires forall n :: i <= n < k ==> !GroupDraftHits(sha, h, d)[n]
    ensures d in Version(sha, h, i).groupDrafts
    decreases k - i
  {
    if i < k {
      GroupDraftWasThere(sha, h, i + 1, k, d);
      GroupDraftInNextVersion(sha, h, i, d);
    }
  }

  lemma GroupDraftCarriesOver(sha: Sha512, h: seq<Tx>, i: nat, d: Uuid, data: GroupData, user: Uuid)
    requires Fresh(h) && i < |h| && d in Version(sha, h, i).groupDrafts && d in Version(sha, h, i + 1).groupDrafts
    requires !GroupDraftHits(sha, h, d)[i] && TemplateDrawn(Registry(h[..i]), data)
    requires GroupCarries(Version(sha, h, i).groupDrafts[d], data, user, Version(sha, h, i).templates)
    ensures TemplateDrawn(Registry(h[..i + 1]), data)
    ensures GroupCarries(Version(sha, h, i + 1).groupDrafts[d], data, user, Version(sha, h, i + 1).templates)
  {
    GroupDraftInNextVersion(sha, h, i, d);
    TemplateStaysDrawn(h, i, data);
    GoneTemplateStaysGone(sha, h, i, data);
    CarriesOn(Version(sha, h, i).groupDrafts, Version(sha, h, i + 1).groupDrafts,
              Version(sha, h, i).templates, Version(sha, h, i + 1).templates, d, data, user);
  }

  lemma {:induction false} GroupDraftCarriesOn(
    sha: Sha512, h: seq<Tx>, i: nat, k: nat, d: Uuid, data: GroupData, user: Uuid)
    requires Fresh(h) && i <= k <= |h| && d in Version(sha, h, i).groupDrafts && d in Version(sha, h, k).groupDrafts
    requires forall n :: i <= n < k ==> !GroupDraftHits(sha, h, d)[n]
    requires TemplateDrawn(Registry(h[..i]), data)
    requires GroupCarries(Version(sha, h, i).groupDrafts[d], data, user, Version(sha, h, i).templates)
    ensures TemplateDrawn(Registry(h[..k]), data)
    ensures GroupCarries(Version(sha, h, k).groupDrafts[d], data, user, Version(sha, h, k).templates)
    decreases k - i
  {
    if i < k {
      GroupDraftWasThere(sha, h, i + 1, k, d);
      GroupDraftCarriesOver(sha, h, i, d, data, user);
      GroupDraftCarriesOn(sha, h, i + 1, k, d, data, user);
    }
  }

  lemma NoGroupDraftAtFirst(sha: Sha512, h: seq<Tx>, d: Uuid)
    ensures d !in Version(sha, h, 0).groupDrafts
  {
  }

  /** Every stored group draft carries the data of a committed Create. */
  lemma GroupDraftHasACreation(sha: Sha512, h: seq<Tx>, k: nat, d: Uuid)
    returns (j: nat, data: GroupData, user: Uuid)
    requires Fresh(h) && k <= |h| && d in Version(sha, h, k).groupDrafts
    ensures j < k && GroupDraftedAt(sha, h, j, d, data, user) && TemplateDrawn(Registry(h[..k]), data)
    ensures GroupCarries(Version(sha, h, k).groupDrafts[d], data, user, Version(sha, h, k).templates)
  {
    var found;
    found, j := LastHit(GroupDraftHits(sha, h, d), k);
    GroupDraftWasThere(sha, h, if found then j + 1 else 0, k, d);
    if !found { NoGroupDraftAtFirst(sha, h, d); }
    data, user := GroupDraftJustWritten(sha, h, j, d);
    GroupDraftCarriesOn(sha, h, j + 1, k, d, data, user);
  }

  /** Step i has stored this data for the group: as a modification, or as the confirmation of a draft that
      step j has created with it. */
  ghost predicate GroupWrittenAt(sha: Sha512, h: seq<Tx>, i: nat, g: Uuid, data: GroupData, user: Uuid) {
    && i < |h| && ReplyAt(sha, h, i).Ok?
    && (|| h[i] == OnGroup(ModifyGroupTx(user, g, data))
        || exists j, draft :: 0 <= j < i && GroupDraftedAt(sha, h, j, draft, data, user)
             && h[i] == OnGroup(ConfirmGroupTx(user, draft, g)))
  }

  function GroupHits(sha: Sha512, h: seq<Tx>, g: Uuid): seq<bool> {
    seq(|h|, n requires 0 <= n < |h| => AimsAtGroup(h[n], g) && ReplyAt(sha, h, n).Ok?)
  }

  lemma GroupJustConfirmed(sha: Sha512, h: seq<Tx>, i: nat, g: Uuid, master: Uuid, draft: Uuid)
    returns (data: GroupData)
    requires Fresh(h) && i < |h| && h[i] == OnGroup(ConfirmGroupTx(master, draft, g)) && ReplyAt(sha, h, i).Ok?
    ensures g in Version(sha, h, i + 1).groups
    ensures GroupWrittenAt(sha, h, i, g, data, master) && TemplateDrawn(Registry(h[..i + 1]), data)
    ensures GroupCarries(Version(sha, h, i + 1).groups[g], data, master, Version(sha, h, i + 1).templates)
  {
    var db := Version(sha, h, i);
    VersionStep(sha, h, i);
    ConfirmGroupAdds(db, master, draft, g);
    var j, user;
    j, data, user := GroupDraftHasACreation(sha, h, i, draft);
    assert user == master;
    TemplateStaysDrawn(h, i, data);
  }

  lemma GroupJustModified(sha: Sha512, h: seq<Tx>, i: nat, g: Uuid, master: Uuid, data: GroupData)
    requires Fresh(h) && i < |h| && h[i] == OnGroup(ModifyGroupTx(master, g, data)) && ReplyAt(sha, h, i).Ok?
    ensures g in Version(sha, h, i + 1).groups
    ensures GroupWrittenAt(sha, h, i, g, data, master) && TemplateDrawn(Registry(h[..i + 1]), data)
    ensures GroupCarries(Version(sha, h, i + 1).groups[g], data, master, Version(sha, h, i + 1).templates)
  {
    VersionStep(sha, h, i);
    ModifiedGroup(Version(sha, h, i), master, g, data);
    UsableIsDrawn(sha, h, i, data);
  }

  lemma GroupJustWritten(sha: Sha512, h: seq<Tx>, i: nat, g: Uuid) returns (data: GroupData, user: Uuid)
    requires Fresh(h) && i < |h| && GroupHits(sha, h, g)[i] && g in Version(sha, h, i + 1).groups
    ensures GroupWrittenAt(sha, h, i, g, data, user) && TemplateDrawn(Registry(h[..i + 1]), data)
    ensures GroupCarries(Version(sha, h, i + 1).groups[g], data, user, Version(sha, h, i + 1).templates)
  {
    match h[i].group
    case ConfirmGroupTx(master, draft, id) =>
      user := master;
      data := GroupJustConfirmed(sha, h, i, g, master, draft);
    case ModifyGroupTx(master, target, given) =>
      data, user := given, master;
      GroupJustModified(sha, h, i, g, master, given);
    case DeleteGroupTx(master, target) =>
      VersionStep(sha, h, i);
      DeletedGroup(Version(sha, h, i), master, target);
      assert false;
  }

  lemma GroupInNextVersion(sha: Sha512, h: seq<Tx>, k: nat, g: Uuid)
    requires k < |h| && g in Version(sha, h, k + 1).groups && !GroupHits(sha, h, g)[k]
    ensures GroupKept(Version(sha, h, k).groups, Version(sha, h, k + 1).groups, Version(sha, h, k + 1).templates, g)
  {
    VersionStep(sha, h, k);
    EveryStateHasIntegrity(sha, h[..k]);
    GroupStays(sha, Version(sha, h, k), h[k], g);
  }

  lemma {:induction false} GroupWasThere(sha: Sha512, h: seq<Tx>, i: nat, k: nat, g: Uuid)
    requires i <= k <= |h| && g in Version(sha, h, k).groups
    requires forall n :: i <= n < k ==> !GroupHits(sha, h, g)[n]
    ensures g in Version(sha, h, i).groups
    decreases k - i
  {
    if i < k {
      GroupWasThere(sha, h, i + 1, k, g);
      GroupInNextVersion(sha, h, i, g);
    }
  }

  lemma GroupCarriesOver(sha: Sha512, h: seq<Tx>, i: nat, g: Uuid, data: GroupData, user: Uuid)
    requires Fresh(h) && i < |h| && g in Version(sha, h, i).groups && g in Version(sha, h, i + 1).groups
    requires !GroupHits(sha, h, g)[i] && TemplateDrawn(Registry(h[..i]), data)
    requires GroupCarries(Version(sha, h, i).groups[g], data, user, Version(sha, h, i).templates)
    ensures TemplateDrawn(Registry(h[..i + 1]), data)
    ensures GroupCarries(Version(sha, h, i + 1).groups[g], data, user, Version(sha, h, i + 1).templates)
  {
    GroupInNextVersion(sha, h, i, g);
    TemplateStaysDrawn(h, i, data);
    GoneTemplateStaysGone(sha, h, i, data);
    CarriesOn(Version(sha, h, i).groups, Version(sha, h, i + 1).groups,
              Version(sha, h, i).templates, Version(sha, h, i + 1).templates, g, data, user);
  }

  lemma {:induction false} GroupCarriesOn(
    sha: Sha512, h: seq<Tx>, i: nat, k: nat, g: Uuid, data: GroupData, user: Uuid)
    requires Fresh(h) && i <= k <= |h| && g in Version(sha, h, i).groups && g in Version(sha, h, k).groups
    requires forall n :: i <= n < k ==> !GroupHits(sha, h, g)[n]
    requires TemplateDrawn(Registry(h[..i]), data)
    requires GroupCarries(Version(sha, h, i).groups[g], data, user, Version(sha, h, i).templates)
    ensures TemplateDrawn(Registry(h[..k]), data)
    ensures GroupCarries(Version(sha, h, k).groups[g], data, user, Version(sha, h, k).templates)
    decreases k - i
  {
    if i < k {
      GroupWasThere(sha, h, i + 1, k, g);
      GroupCarriesOver(sha, h, i, g, data, user);
      GroupCarriesOn(sha, h, i + 1, k, g, data, user);
    }
  }

  lemma NoGroupAtFirst(sha: Sha512, h: seq<Tx>, g: Uuid)
    ensures g !in Version(sha, h, 0).groups
  {
  }

  /** Every stored group carries the data of its last committed write, with the template that this write has
      named if it is still stored, and none otherwise. */
  lemma GroupIsLastWritten(sha: Sha512, h: seq<Tx>, k: nat, g: Uuid)
    returns (i: nat, data: GroupData, user: Uuid)
    requires Fresh(h) && k <= |h| && g in Version(sha, h, k).groups
    ensures i < k && GroupWrittenAt(sha, h, i, g, data, user) && Untouched(GroupHits(sha, h, g), i, k)
    ensures GroupCarries(Version(sha, h, k).groups[g], data, user, Version(sha, h, k).templates)
  {
    var found;
    found, i := LastHit(GroupHits(sha, h, g), k);
    GroupWasThere(sha, h, if found then i + 1 else 0, k, g);
    if !found { NoGroupAtFirst(sha, h, g); }
    data, user := GroupJustWritten(sha, h, i, g);
    GroupCarriesOn(sha, h, i + 1, k, g, data, user);
  }
}
