/** What a request of one user leaves unchanged in the rows of every other user: all but the template of a
    group, which disappears with the template. */
module Tenancy {
  import opened Prelude
  import opened Tables
  import opened Deletions
  import opened Requests
  import opened History
  import opened Footprints
  import opened Coherence

  // ----- The rows of one tenant -----

  function TemplatesOf(table: map<Uuid, TemplateRow>, v: Uuid): map<Uuid, TemplateRow> {
    map i | i in table && table[i].master == v :: table[i]
  }

  function RecipientsOf(table: map<Uuid, RecipientRow>, v: Uuid): map<Uuid, RecipientRow> {
    map i | i in table && table[i].master == v :: table[i]
  }

  /** Groups without the template column, which may refer to a template of another tenant. */
  function GroupsOf(table: map<Uuid, GroupRow>, v: Uuid): map<Uuid, GroupRow> {
    map i | i in table && table[i].master == v :: table[i].(template := None)
  }

  function BatchesOf(table: map<Uuid, BatchRow>, v: Uuid): map<Uuid, BatchRow> {
    map i | i in table && table[i].master == v :: table[i]
  }

  predicate GroupOf(groups: map<Uuid, GroupRow>, group: Uuid, v: Uuid) {
    group in groups && groups[group].master == v
  }

  function MembershipsOf(memberships: set<Membership>, groups: map<Uuid, GroupRow>, v: Uuid): set<Membership> {
    set m | m in memberships && GroupOf(groups, m.group, v)
  }

  function NotificationsOf(
    table: map<Uuid, NotificationRow>, groups: map<Uuid, GroupRow>, v: Uuid): map<Uuid, NotificationRow>
  {
    map i | i in table && GroupOf(groups, table[i].group, v) :: table[i]
  }

  /** Everything that belongs to one tenant, credentials included. */
  datatype View = View(
    user: Option<UserRow>,
    templates: map<Uuid, TemplateRow>,
    templateDrafts: map<Uuid, TemplateRow>,
    recipients: map<Uuid, RecipientRow>,
    recipientDrafts: map<Uuid, RecipientRow>,
    groups: map<Uuid, GroupRow>,
    groupDrafts: map<Uuid, GroupRow>,
    memberships: set<Membership>,
    batches: map<Uuid, BatchRow>,
    notifications: map<Uuid, NotificationRow>)

  function ViewOf(db: Db, v: Uuid): View {
    View(
      if v in db.users then Some(db.users[v]) else None,
      TemplatesOf(db.templates, v),
      TemplatesOf(db.templateDrafts, v),
      RecipientsOf(db.recipients, v),
      RecipientsOf(db.recipientDrafts, v),
      GroupsOf(db.groups, v),
      GroupsOf(db.groupDrafts, v),
      MembershipsOf(db.memberships, db.groups, v),
      BatchesOf(db.batches, v),
      NotificationsOf(db.notifications, db.groups, v))
  }

  /** The transaction runs on behalf of user u; a notification is created for the owner of its batch. */
  predicate RunsAs(db: Db, tx: Tx, u: Uuid) {
    match tx
    case OnUser(CreateUserTx(id, _, _)) => id == u
    case OnUser(t) => t.user == u
    case OnTemplate(t) => t.user == u
    case OnRecipient(t) => t.user == u
    case OnGroup(t) => t.user == u
    case OnNotification(CreateNotificationTx(_, _, batch, _, _)) => OwnsBatch(db, u, batch)
    case OnNotification(t) => t.user == u
    case OnContact(_) => true
  }

  // ----- Deletions -----

  lemma WithoutUserKeepsTables(db: Db, u: Uuid, v: Uuid)
    requires u != v
    ensures TemplatesOf(TemplatesWithout(db.templates, u), v) == TemplatesOf(db.templates, v)
    ensures TemplatesOf(TemplatesWithout(db.templateDrafts, u), v) == TemplatesOf(db.templateDrafts, v)
    ensures RecipientsOf(RecipientsWithout(db.recipients, u), v) == RecipientsOf(db.recipients, v)
    ensures RecipientsOf(RecipientsWithout(db.recipientDrafts, u), v) == RecipientsOf(db.recipientDrafts, v)
    ensures BatchesOf(BatchesWithout(db.batches, u), v) == BatchesOf(db.batches, v)
  {
  }

  lemma WithoutUserKeepsGroups(db: Db, groups: map<Uuid, GroupRow>, u: Uuid, v: Uuid)
    requires u != v
    ensures GroupsOf(GroupsWithout(db, groups, u), v) == GroupsOf(groups, v)
    ensures forall g :: GroupOf(GroupsWithout(db, groups, u), g, v) <==> GroupOf(groups, g, v)
  {
  }

  lemma WithoutUserKeepsLinks(db: Db, u: Uuid, v: Uuid)
    requires Coherent(db) && u != v
    ensures MembershipsOf(MembershipsWithout(db, u), GroupsWithout(db, db.groups, u), v)
         == MembershipsOf(db.memberships, db.groups, v)
    ensures NotificationsOf(NotificationsWithout(db, u), GroupsWithout(db, db.groups, u), v)
         == NotificationsOf(db.notifications, db.groups, v)
  {
    WithoutUserKeepsGroups(db, db.groups, u, v);
    forall m | m in db.memberships && GroupOf(db.groups, m.group, v)
      ensures !Touches(db, m.recipient, m.group, u)
    {
      assert MembershipReferences(m, db.recipients, db.groups);
    }
    forall i | i in db.notifications && GroupOf(db.groups, db.notifications[i].group, v)
      ensures !Touches(db, db.notifications[i].recipient, db.notifications[i].group, u)
    {
      assert Grounded(db.notifications[i], db.recipients, db.groups, db.batches);
    }
  }

  lemma WithoutUserKeepsView(db: Db, u: Uuid, v: Uuid)
    requires Coherent(db) && u != v
    ensures ViewOf(WithoutUser(db, u), v) == ViewOf(db, v)
  {
    WithoutUserKeepsTables(db, u, v);
    WithoutUserKeepsGroups(db, db.groups, u, v);
    WithoutUserKeepsGroups(db, db.groupDrafts, u, v);
    WithoutUserKeepsLinks(db, u, v);
  }

  /** A change of the group table that keeps the rows of v, except for their template. */
  ghost predicate SameGroups(groups: map<Uuid, GroupRow>, next: map<Uuid, GroupRow>, v: Uuid) {
    GroupsOf(next, v) == GroupsOf(groups, v)
  }

  lemma SameGroupsSameLinks(db: Db, next: map<Uuid, GroupRow>, v: Uuid)
    requires SameGroups(db.groups, next, v)
    ensures MembershipsOf(db.memberships, next, v) == MembershipsOf(db.memberships, db.groups, v)
    ensures NotificationsOf(db.notifications, next, v) == NotificationsOf(db.notifications, db.groups, v)
  {
    forall g
      ensures GroupOf(next, g, v) <==> GroupOf(db.groups, g, v)
    {
      assert g in GroupsOf(next, v) <==> g in GroupsOf(db.groups, v);
    }
  }

  lemma DetachKeepsGroups(groups: map<Uuid, GroupRow>, template: Uuid, v: Uuid)
    ensures SameGroups(groups, Detach(groups, template), v)
  {
  }

  lemma WithoutTemplateKeepsView(db: Db, template: Uuid, v: Uuid)
    requires template in db.templates ==> db.templates[template].master != v
    ensures ViewOf(WithoutTemplate(db, template), v) == ViewOf(db, v)
  {
    DetachKeepsGroups(db.groups, template, v);
    DetachKeepsGroups(db.groupDrafts, template, v);
    SameGroupsSameLinks(db, Detach(db.groups, template), v);
    assert TemplatesOf(db.templates - {template}, v) == TemplatesOf(db.templates, v);
  }

  lemma WithoutRecipientKeepsView(db: Db, recipient: Uuid, v: Uuid)
    requires Coherent(db) && recipient in db.recipients && db.recipients[recipient].master != v
    ensures ViewOf(WithoutRecipient(db, recipient), v) == ViewOf(db, v)
  {
    var next := WithoutRecipient(db, recipient);
    assert RecipientsOf(next.recipients, v) == RecipientsOf(db.recipients, v);
    assert MembershipsOf(next.memberships, db.groups, v) == MembershipsOf(db.memberships, db.groups, v);
    forall i | i in db.notifications && GroupOf(db.groups, db.notifications[i].group, v)
      ensures db.notifications[i].recipient != recipient
    {
      assert Grounded(db.notifications[i], db.recipients, db.groups, db.batches);
    }
    assert NotificationsOf(next.notifications, db.groups, v) == NotificationsOf(db.notifications, db.groups, v);
  }

  lemma WithoutGroupKeepsView(db: Db, group: Uuid, v: Uuid)
    requires group in db.groups && db.groups[group].master != v
    ensures ViewOf(WithoutGroup(db, group), v) == ViewOf(db, v)
  {
    var next := WithoutGroup(db, group);
    assert GroupsOf(next.groups, v) == GroupsOf(db.groups, v);
    assert MembershipsOf(next.memberships, next.groups, v) == MembershipsOf(db.memberships, db.groups, v);
    assert NotificationsOf(next.notifications, next.groups, v) == NotificationsOf(db.notifications, db.groups, v);
  }

  // ----- Insertions and updates -----

  lemma UserEditsKeepView(sha: Sha512, db: Db, tx: UserTx, u: Uuid, v: Uuid)
    requires RunsAs(db, OnUser(tx), u) && u != v && !tx.DeleteUserTx?
    ensures ViewOf(ApplyUser(sha, db, tx).db, v) == ViewOf(db, v)
  {
  }

  lemma CreateTemplateKeepsView(db: Db, user: Uuid, id: Uuid, data: TemplateData, v: Uuid)
    requires user != v
    ensures ViewOf(CreateTemplate(db, user, id, data).db, v) == ViewOf(db, v)
  {
    var next := CreateTemplate(db, user, id, data).db;
    assert TemplatesOf(next.templateDrafts, v) == TemplatesOf(db.templateDrafts, v);
  }

  lemma ConfirmTemplateKeepsView(db: Db, user: Uuid, draft: Uuid, id: Uuid, v: Uuid)
    requires user != v
    ensures ViewOf(ConfirmTemplate(db, user, draft, id).db, v) == ViewOf(db, v)
  {
    var next := ConfirmTemplate(db, user, draft, id).db;
    if next != db {
      MoveTemplateKeepsView(db, draft, id, v);
    }
  }

  lemma MoveTemplateKeepsView(db: Db, draft: Uuid, id: Uuid, v: Uuid)
    requires draft in db.templateDrafts && db.templateDrafts[draft].master != v && id !in db.templates
    ensures ViewOf(db.(templates := db.templates[id := db.templateDrafts[draft]],
                       templateDrafts := db.templateDrafts - {draft}), v) == ViewOf(db, v)
  {
    assert TemplatesOf(db.templates[id := db.templateDrafts[draft]], v) == TemplatesOf(db.templates, v);
    assert TemplatesOf(db.templateDrafts - {draft}, v) == TemplatesOf(db.templateDrafts, v);
  }

  lemma ModifyTemplateKeepsView(db: Db, user: Uuid, target: Uuid, data: TemplateData, v: Uuid)
    requires user != v
    ensures ViewOf(ModifyTemplate(db, user, target, data).db, v) == ViewOf(db, v)
  {
    var next := ModifyTemplate(db, user, target, data).db;
    assert TemplatesOf(next.templates, v) == TemplatesOf(db.templates, v);
  }

  lemma CreateRecipientKeepsView(db: Db, user: Uuid, id: Uuid, data: RecipientData, v: Uuid)
    requires user != v
    ensures ViewOf(CreateRecipient(db, user, id, data).db, v) == ViewOf(db, v)
  {
    var next := CreateRecipient(db, user, id, data).db;
    assert RecipientsOf(next.recipientDrafts, v) == RecipientsOf(db.recipientDrafts, v);
  }

  lemma ConfirmRecipientKeepsView(db: Db, user: Uuid, draft: Uuid, id: Uuid, v: Uuid)
    requires user != v
    ensures ViewOf(ConfirmRecipient(db, user, draft, id).db, v) == ViewOf(db, v)
  {
    var next := ConfirmRecipient(db, user, draft, id).db;
    if next != db {
      MoveRecipientKeepsView(db, draft, id, v);
    }
  }

  lemma MoveRecipientKeepsView(db: Db, draft: Uuid, id: Uuid, v: Uuid)
    requires draft in db.recipientDrafts && db.recipientDrafts[draft].master != v && id !in db.recipients
    ensures ViewOf(db.(recipients := db.recipients[id := db.recipientDrafts[draft]],
                       recipientDrafts := db.recipientDrafts - {draft}), v) == ViewOf(db, v)
  {
    assert RecipientsOf(db.recipients[id := db.recipientDrafts[draft]], v) == RecipientsOf(db.recipients, v);
    assert RecipientsOf(db.recipientDrafts - {draft}, v) == RecipientsOf(db.recipientDrafts, v);
  }

  lemma ModifyRecipientKeepsView(db: Db, user: Uuid, target: Uuid, data: RecipientData, v: Uuid)
    requires user != v
    ensures ViewOf(ModifyRecipient(db, user, target, data).db, v) == ViewOf(db, v)
  {
    var next := ModifyRecipient(db, user, target, data).db;
    assert RecipientsOf(next.recipients, v) == RecipientsOf(db.recipients, v);
  }

  lemma CreateGroupKeepsView(db: Db, user: Uuid, id: Uuid, data: GroupData, v: Uuid)
    requires user != v
    ensures ViewOf(CreateGroup(db, user, id, data).db, v) == ViewOf(db, v)
  {
    CreateGroupFootprint(db, user, id, data);
    CreatedGroupsStay(db, user, id, data, v);
    OtherDraftsKeepView(db, CreateGroup(db, user, id, data).db, v);
  }

  lemma OtherDraftsKeepView(db: Db, next: Db, v: Uuid)
    requires next == db.(groupDrafts := next.groupDrafts)
    requires forall g :: GroupOf(db.groupDrafts, g, v) ==>
      GroupOf(next.groupDrafts, g, v) && next.groupDrafts[g] == db.groupDrafts[g]
    requires forall g :: GroupOf(next.groupDrafts, g, v) ==> GroupOf(db.groupDrafts, g, v)
    ensures ViewOf(next, v) == ViewOf(db, v)
  {
    assert GroupsOf(next.groupDrafts, v) == GroupsOf(db.groupDrafts, v);
  }

  lemma ConfirmGroupKeepsView(db: Db, user: Uuid, draft: Uuid, id: Uuid, v: Uuid)
    requires user != v
    ensures ViewOf(ConfirmGroup(db, user, draft, id).db, v) == ViewOf(db, v)
  {
    var next := ConfirmGroup(db, user, draft, id).db;
    if next != db {
      AddGroupKeepsView(db, id, db.groupDrafts[draft], v);
      DropTemplateDraftKeepsView(db.(groups := db.groups[id := db.groupDrafts[draft]]), user, draft, v);
    }
  }

  lemma AddGroupKeepsView(db: Db, id: Uuid, row: GroupRow, v: Uuid)
    requires id !in db.groups && row.master != v
    ensures ViewOf(db.(groups := db.groups[id := row]), v) == ViewOf(db, v)
  {
    assert SameGroups(db.groups, db.groups[id := row], v);
    SameGroupsSameLinks(db, db.groups[id := row], v);
  }

  lemma DropTemplateDraftKeepsView(db: Db, user: Uuid, draft: Uuid, v: Uuid)
    requires user != v
    ensures ViewOf(DropTemplateDraft(db, user, draft), v) == ViewOf(db, v)
  {
    assert TemplatesOf(DropTemplateDraft(db, user, draft).templateDrafts, v) == TemplatesOf(db.templateDrafts, v);
  }

  lemma ModifyGroupKeepsView(db: Db, user: Uuid, target: Uuid, data: GroupData, v: Uuid)
    requires user != v
    ensures ViewOf(ModifyGroup(db, user, target, data).db, v) == ViewOf(db, v)
  {
    var next := ModifyGroup(db, user, target, data).db;
    assert SameGroups(db.groups, next.groups, v);
    SameGroupsSameLinks(db, next.groups, v);
  }

  lemma AddRecipientKeepsView(db: Db, user: Uuid, group: Uuid, recipient: Uuid, v: Uuid)
    requires user != v
    ensures ViewOf(AddRecipient(db, user, group, recipient).db, v) == ViewOf(db, v)
  {
    AddRecipientFootprint(db, user, group, recipient);
    if AddRecipient(db, user, group, recipient).reply.Ok? {
      OneMembershipKeepsView(db, AddRecipient(db, user, group, recipient).db, Membership(recipient, group), v);
    } else {
      FailedGroupRequest(db, AddRecipientTx(user, group, recipient));
    }
  }

  lemma OneMembershipKeepsView(db: Db, next: Db, m: Membership, v: Uuid)
    requires next == db.(memberships := next.memberships) && !GroupOf(db.groups, m.group, v)
    requires next.memberships == db.memberships + {m} || next.memberships == db.memberships - {m}
    ensures ViewOf(next, v) == ViewOf(db, v)
  {
    assert MembershipsOf(next.memberships, db.groups, v) == MembershipsOf(db.memberships, db.groups, v);
  }

  lemma RemoveRecipientKeepsView(db: Db, user: Uuid, group: Uuid, recipient: Uuid, v: Uuid)
    requires user != v
    ensures ViewOf(RemoveRecipient(db, user, group, recipient).db, v) == ViewOf(db, v)
  {
    RemoveRecipientFootprint(db, user, group, recipient);
    if RemoveRecipient(db, user, group, recipient).reply.Ok? {
      OneMembershipKeepsView(db, RemoveRecipient(db, user, group, recipient).db, Membership(recipient, group), v);
    } else {
      FailedGroupRequest(db, RemoveRecipientTx(user, group, recipient));
    }
  }

  lemma CreateBatchKeepsView(db: Db, user: Uuid, id: Uuid, v: Uuid)
    requires user != v
    ensures ViewOf(CreateBatch(db, user, id).db, v) == ViewOf(db, v)
  {
    var next := CreateBatch(db, user, id).db;
    assert BatchesOf(next.batches, v) == BatchesOf(db.batches, v);
  }

  lemma MarkSentKeepsView(db: Db, user: Uuid, batch: Uuid, v: Uuid)
    requires user != v
    ensures ViewOf(MarkSent(db, user, batch), v) == ViewOf(db, v)
  {
    var next := MarkSent(db, user, batch);
    assert BatchesOf(next.batches, v) == BatchesOf(db.batches, v);
  }

  lemma CreateNotificationKeepsView(db: Db, tx: NotificationTx, user: Uuid, v: Uuid)
    requires tx.CreateNotificationTx? && Justified(db, tx) && OwnsBatch(db, user, tx.batch) && user != v
    ensures ViewOf(ApplyNotification(db, tx).db, v) == ViewOf(db, v)
  {
    var next := ApplyNotification(db, tx).db;
    assert NotificationsOf(next.notifications, db.groups, v) == NotificationsOf(db.notifications, db.groups, v);
  }

  lemma CancelNotificationKeepsView(db: Db, user: Uuid, id: Uuid, v: Uuid)
    requires Coherent(db) && user != v
    ensures ViewOf(CancelNotification(db, user, id).db, v) == ViewOf(db, v)
  {
    var next := CancelNotification(db, user, id).db;
    if id in ListPending(db, user) {
      EachNotificationHasOneReader(db, id, user);
    }
    assert NotificationsOf(next.notifications, db.groups, v) == NotificationsOf(db.notifications, db.groups, v);
  }

  // ----- The frame -----

  lemma DeleteUserKeepsView(db: Db, u: Uuid, v: Uuid)
    requires Coherent(db) && u != v
    ensures ViewOf(DeleteUser(db, u).db, v) == ViewOf(db, v)
  {
    DeletingAUser(db, u);
    WithoutUserKeepsView(db, u, v);
  }

  lemma UsersKeepView(sha: Sha512, db: Db, tx: UserTx, u: Uuid, v: Uuid)
    requires Coherent(db) && RunsAs(db, OnUser(tx), u) && u != v
    ensures ViewOf(ApplyUser(sha, db, tx).db, v) == ViewOf(db, v)
  {
    if tx.DeleteUserTx? {
      DeleteUserKeepsView(db, u, v);
    } else {
      UserEditsKeepView(sha, db, tx, u, v);
    }
  }

  lemma TemplatesKeepView(db: Db, tx: TemplateTx, v: Uuid)
    requires tx.user != v
    ensures ViewOf(ApplyTemplate(db, tx).db, v) == ViewOf(db, v)
  {
    match tx
    case CreateTemplateTx(user, id, data) => CreateTemplateKeepsView(db, user, id, data, v);
    case ConfirmTemplateTx(user, draft, id) => ConfirmTemplateKeepsView(db, user, draft, id, v);
    case ModifyTemplateTx(user, target, data) => ModifyTemplateKeepsView(db, user, target, data, v);
    case DeleteTemplateTx(user, target) =>
      DeletingATemplate(db, target);
      if OwnsTemplate(db, user, target) { WithoutTemplateKeepsView(db, target, v); }
  }

  lemma RecipientsKeepView(db: Db, tx: RecipientTx, v: Uuid)
    requires Coherent(db) && tx.user != v
    ensures ViewOf(ApplyRecipient(db, tx).db, v) == ViewOf(db, v)
  {
    match tx
    case CreateRecipientTx(user, id, data) => CreateRecipientKeepsView(db, user, id, data, v);
    case ConfirmRecipientTx(user, draft, id) => ConfirmRecipientKeepsView(db, user, draft, id, v);
    case ModifyRecipientTx(user, target, data) => ModifyRecipientKeepsView(db, user, target, data, v);
    case DeleteRecipientTx(user, target) =>
      DeletingARecipient(db, target);
      if OwnsRecipient(db, user, target) { WithoutRecipientKeepsView(db, target, v); }
  }

  lemma GroupsKeepView(db: Db, tx: GroupTx, v: Uuid)
    requires tx.user != v
    ensures ViewOf(ApplyGroup(db, tx).db, v) == ViewOf(db, v)
  {
    match tx
    case CreateGroupTx(user, id, data) => CreateGroupKeepsView(db, user, id, data, v);
    case ConfirmGroupTx(user, draft, id) => ConfirmGroupKeepsView(db, user, draft, id, v);
    case ModifyGroupTx(user, target, data) => ModifyGroupKeepsView(db, user, target, data, v);
    case DeleteGroupTx(user, target) =>
      DeletingAGroup(db, target);
      if OwnsGroup(db, user, target) { WithoutGroupKeepsView(db, target, v); }
    case AddRecipientTx(user, target, member) => AddRecipientKeepsView(db, user, target, member, v);
    case RemoveRecipientTx(user, target, member) => RemoveRecipientKeepsView(db, user, target, member, v);
  }

  lemma NotificationsKeepView(db: Db, tx: NotificationTx, u: Uuid, v: Uuid)
    requires Coherent(db) && Justified(db, tx) && RunsAs(db, OnNotification(tx), u) && u != v
    ensures ViewOf(ApplyNotification(db, tx).db, v) == ViewOf(db, v)
  {
    match tx
    case CreateBatchTx(user, id) => CreateBatchKeepsView(db, user, id, v);
    case MarkSentTx(user, batch) => MarkSentKeepsView(db, user, batch, v);
    case CreateNotificationTx(_, _, _, _, _) => CreateNotificationKeepsView(db, tx, u, v);
    case CancelNotificationTx(user, target) => CancelNotificationKeepsView(db, user, target, v);
  }

  lemma OthersKeepTheView(sha: Sha512, db: Db, tx: Tx, u: Uuid, v: Uuid)
    requires Coherent(db) && (tx.OnNotification? ==> Justified(db, tx.notification))
    requires RunsAs(db, tx, u) && u != v
    ensures ViewOf(Apply(sha, db, tx).db, v) == ViewOf(db, v)
  {
    match tx
    case OnUser(t) => UsersKeepView(sha, db, t, u, v);
    case OnTemplate(t) => TemplatesKeepView(db, t, v);
    case OnRecipient(t) => RecipientsKeepView(db, t, v);
    case OnGroup(t) => GroupsKeepView(db, t, v);
    case OnNotification(t) => NotificationsKeepView(db, t, u, v);
    case OnContact(t) => ContactFootprint(db, t);
  }

  // ----- The template column -----

  /** The template was one of user u and is no longer stored. */
  predicate DeletedBy(templates: map<Uuid, TemplateRow>, next: map<Uuid, TemplateRow>, key: Option<Uuid>, u: Uuid) {
    key.Some? && key.value in templates && templates[key.value].master == u && key.value !in next
  }

  /** Every group of v is still there, and has the template it had, unless that template was one of u
      and is deleted: then it has none. */
  ghost predicate OnlyNulled(
    groups: map<Uuid, GroupRow>, next: map<Uuid, GroupRow>,
    templates: map<Uuid, TemplateRow>, nextTemplates: map<Uuid, TemplateRow>, u: Uuid, v: Uuid)
  {
    forall g :: GroupOf(groups, g, v) ==>
      && GroupOf(next, g, v)
      && next[g].template ==
           if DeletedBy(templates, nextTemplates, groups[g].template, u) then None else groups[g].template
  }

  lemma DetachOnlyNulls(groups: map<Uuid, GroupRow>, templates: map<Uuid, TemplateRow>, t: Uuid, u: Uuid, v: Uuid)
    requires t in templates && templates[t].master == u
    ensures OnlyNulled(groups, Detach(groups, t), templates, templates - {t}, u, v)
  {
  }

  lemma WithoutUserOnlyNulls(db: Db, groups: map<Uuid, GroupRow>, u: Uuid, v: Uuid)
    requires u != v
    ensures OnlyNulled(groups, GroupsWithout(db, groups, u), db.templates, TemplatesWithout(db.templates, u), u, v)
  {
  }

  lemma UsersOnlyNull(sha: Sha512, db: Db, tx: UserTx, u: Uuid, v: Uuid)
    requires Coherent(db) && RunsAs(db, OnUser(tx), u) && u != v
    ensures var next := ApplyUser(sha, db, tx).db;
      && OnlyNulled(db.groups, next.groups, db.templates, next.templates, u, v)
      && OnlyNulled(db.groupDrafts, next.groupDrafts, db.templates, next.templates, u, v)
  {
    if !tx.DeleteUserTx? {
      UserFootprint(sha, db, tx);
    } else if u in db.users {
      DeletingAUser(db, u);
      WithoutUserOnlyNulls(db, db.groups, u, v);
      WithoutUserOnlyNulls(db, db.groupDrafts, u, v);
    }
  }

  lemma TemplatesOnlyNull(db: Db, tx: TemplateTx, v: Uuid)
    requires tx.user != v
    ensures var next := ApplyTemplate(db, tx).db;
      && OnlyNulled(db.groups, next.groups, db.templates, next.templates, tx.user, v)
      && OnlyNulled(db.groupDrafts, next.groupDrafts, db.templates, next.templates, tx.user, v)
  {
    if tx.DeleteTemplateTx? {
      DeletingATemplate(db, tx.target);
      if OwnsTemplate(db, tx.user, tx.target) {
        DetachOnlyNulls(db.groups, db.templates, tx.target, tx.user, v);
        DetachOnlyNulls(db.groupDrafts, db.templates, tx.target, tx.user, v);
      }
    } else {
      TemplateEditsLeaveGroups(db, tx);
    }
  }

  lemma OthersGroupsStay(db: Db, tx: GroupTx, v: Uuid)
    requires tx.user != v
    ensures SameRows(db.groups, ApplyGroup(db, tx).db.groups, v)
    ensures SameRows(db.groupDrafts, ApplyGroup(db, tx).db.groupDrafts, v)
  {
    match tx
    case CreateGroupTx(user, id, data) =>
      CreateGroupFootprint(db, user, id, data);
      CreatedGroupsStay(db, user, id, data, v);
      assert ApplyGroup(db, tx) == CreateGroup(db, user, id, data);
    case ConfirmGroupTx(user, draft, id) =>
      ConfirmedGroupsStay(db, user, draft, id, v);
      assert ApplyGroup(db, tx) == ConfirmGroup(db, user, draft, id);
    case ModifyGroupTx(user, target, data) =>
      ModifiedGroupsStay(db, user, target, data, v);
      assert ApplyGroup(db, tx) == ModifyGroup(db, user, target, data);
    case DeleteGroupTx(user, target) =>
      DeletedGroupsStay(db, user, target, v);
      assert ApplyGroup(db, tx) == DeleteGroup(db, user, target);
    case AddRecipientTx(user, target, member) =>
      AddRecipientFootprint(db, user, target, member);
      assert ApplyGroup(db, tx) == AddRecipient(db, user, target, member);
    case RemoveRecipientTx(user, target, member) =>
      RemoveRecipientFootprint(db, user, target, member);
      assert ApplyGroup(db, tx) == RemoveRecipient(db, user, target, member);
  }

  ghost predicate SameRows(groups: map<Uuid, GroupRow>, next: map<Uuid, GroupRow>, v: Uuid) {
    forall g :: GroupOf(groups, g, v) ==> g in next && next[g] == groups[g]
  }

  lemma DeletedGroupsStay(db: Db, user: Uuid, group: Uuid, v: Uuid)
    requires user != v
    ensures SameRows(db.groups, DeleteGroup(db, user, group).db.groups, v)
    ensures DeleteGroup(db, user, group).db.groupDrafts == db.groupDrafts
  {
    DeletingAGroup(db, group);
  }

  lemma CreatedGroupsStay(db: Db, user: Uuid, id: Uuid, data: GroupData, v: Uuid)
    ensures SameRows(db.groupDrafts, CreateGroup(db, user, id, data).db.groupDrafts, v)
    ensures user != v ==>
      forall g :: GroupOf(CreateGroup(db, user, id, data).db.groupDrafts, g, v) ==> GroupOf(db.groupDrafts, g, v)
  {
    if CreateGroup(db, user, id, data).reply.Err? {
      assert CreateGroup(db, user, id, data).db == db;
    }
  }

  lemma ConfirmedGroupsStay(db: Db, user: Uuid, draft: Uuid, id: Uuid, v: Uuid)
    ensures SameRows(db.groups, ConfirmGroup(db, user, draft, id).db.groups, v)
    ensures ConfirmGroup(db, user, draft, id).db.groupDrafts == db.groupDrafts
  {
  }

  lemma ModifiedGroupsStay(db: Db, user: Uuid, group: Uuid, data: GroupData, v: Uuid)
    requires user != v
    ensures SameRows(db.groups, ModifyGroup(db, user, group, data).db.groups, v)
    ensures ModifyGroup(db, user, group, data).db.groupDrafts == db.groupDrafts
  {
  }

  /** The only effect of one tenant on the rows of another: a template of u that is deleted disappears
      from the groups and the group drafts of v that use it. */
  lemma OnlyDeletedTemplatesCrossTenants(sha: Sha512, db: Db, tx: Tx, u: Uuid, v: Uuid)
    requires Coherent(db) && RunsAs(db, tx, u) && u != v
    ensures var next := Apply(sha, db, tx).db;
      && OnlyNulled(db.groups, next.groups, db.templates, next.templates, u, v)
      && OnlyNulled(db.groupDrafts, next.groupDrafts, db.templates, next.templates, u, v)
  {
    match tx
    case OnUser(t) => UsersOnlyNull(sha, db, t, u, v);
    case OnTemplate(t) => TemplatesOnlyNull(db, t, v);
    case OnRecipient(t) => RecipientFootprint(db, t);
    case OnGroup(t) => OthersGroupsStay(db, t, v); GroupFootprint(db, t);
    case OnNotification(t) => NotificationFootprint(db, t);
    case OnContact(t) => ContactFootprint(db, t);
  }

  /** A transaction that runs as user u leaves everything that belongs to another user v unchanged, except
      that a group or group draft of v loses a template of u that is deleted. */
  lemma OtherTenantsAreUntouched(sha: Sha512, db: Db, tx: Tx, u: Uuid, v: Uuid)
    requires Coherent(db) && (tx.OnNotification? ==> Justified(db, tx.notification))
    requires RunsAs(db, tx, u) && u != v
    ensures var next := Apply(sha, db, tx).db;
      && ViewOf(next, v) == ViewOf(db, v)
      && OnlyNulled(db.groups, next.groups, db.templates, next.templates, u, v)
      && OnlyNulled(db.groupDrafts, next.groupDrafts, db.templates, next.templates, u, v)
  {
    OthersKeepTheView(sha, db, tx, u, v);
    OnlyDeletedTemplatesCrossTenants(sha, db, tx, u, v);
  }
}
