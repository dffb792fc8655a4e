/** What one DELETE statement leaves behind, as one simultaneous change of all tables. */
module Deletions {
  import opened Prelude
  import opened Tables
  import opened Cascade

  /** The references to one template are NULL. */
  function Detach(groups: map<Uuid, GroupRow>, template: Uuid): map<Uuid, GroupRow> {
    map i | i in groups ::
      if groups[i].template == Some(template) then groups[i].(template := None) else groups[i]
  }

  function WithoutTemplate(db: Db, template: Uuid): Db {
    db.(templates := db.templates - {template},
        groups := Detach(db.groups, template),
        groupDrafts := Detach(db.groupDrafts, template))
  }

  function WithoutRecipient(db: Db, recipient: Uuid): Db {
    db.(recipients := db.recipients - {recipient},
        memberships := (set m | m in db.memberships && m.recipient != recipient),
        notifications := map i | i in db.notifications && db.notifications[i].recipient != recipient ::
          db.notifications[i])
  }

  function WithoutGroup(db: Db, group: Uuid): Db {
    db.(groups := db.groups - {group},
        memberships := (set m | m in db.memberships && m.group != group),
        notifications := map i | i in db.notifications && db.notifications[i].group != group ::
          db.notifications[i])
  }

  /** What goes with a row that has no dependents of dependents: the row, and the links that hold its key. */
  ghost predicate GoneWith(db: Db, gone: set<Ref>, t: Table, i: Uuid) {
    && (forall u, j :: u != Notifications ==> (Row(u, j) in gone <==> u == t && j == i))
    && (forall m :: m in db.memberships ==>
          (Member(m) in gone <==> (t == Recipients && m.recipient == i) || (t == Groups && m.group == i)))
    && (forall n :: n in db.notifications ==>
          (Row(Notifications, n) in gone <==>
            || (t == Recipients && db.notifications[n].recipient == i)
            || (t == Groups && db.notifications[n].group == i)))
  }

  lemma DoomedByOneRow(db: Db, t: Table, i: Uuid)
    requires t == Templates || t == Recipients || t == Groups
    ensures GoneWith(db, Doomed(db, {Row(t, i)}), t, i)
  {
    var root := Row(t, i);
    forall r | r in Dependents(db, Dependents(db, {root}))
      ensures false
    {
      var q :| q in Dependents(db, {root}) && Cascades(db, r, q);
      CascadeClimbsOneLevel(db, q, root);
      CascadeClimbsOneLevel(db, r, q);
    }
    forall r
      ensures r in Dependents(db, {root}) <==> Cascades(db, r, root)
      ensures Cascades(db, r, root) ==> Level(r) == 2
    {
      if Cascades(db, r, root) { CascadeClimbsOneLevel(db, r, root); }
    }
  }

  /** A table none of whose rows is gone stays as it is. */
  lemma KeepAll<R>(table: map<Uuid, R>, t: Table, gone: set<Ref>)
    requires forall i :: Row(t, i) !in gone
    ensures Keep(table, t, gone) == table
  {
  }

  lemma KeepAllGroups(groups: map<Uuid, GroupRow>, t: Table, gone: set<Ref>)
    requires forall i :: Row(t, i) !in gone && Row(Templates, i) !in gone
    ensures KeepGroups(groups, t, gone) == groups
  {
  }

  lemma KeepAllBut<R>(table: map<Uuid, R>, t: Table, gone: set<Ref>, i: Uuid)
    requires forall j :: Row(t, j) in gone <==> j == i
    ensures Keep(table, t, gone) == table - {i}
  {
  }

  lemma KeepAllGroupsBut(groups: map<Uuid, GroupRow>, t: Table, gone: set<Ref>, i: Uuid)
    requires forall j :: Row(t, j) in gone <==> j == i
    requires forall j :: Row(Templates, j) !in gone
    ensures KeepGroups(groups, t, gone) == groups - {i}
  {
  }

  lemma KeepDetached(groups: map<Uuid, GroupRow>, t: Table, gone: set<Ref>, template: Uuid)
    requires forall j :: Row(t, j) !in gone
    requires forall j :: Row(Templates, j) in gone <==> j == template
    ensures KeepGroups(groups, t, gone) == Detach(groups, template)
  {
  }

  lemma KeepLinks(db: Db, gone: set<Ref>, t: Table, i: Uuid)
    requires t == Templates || t == Recipients || t == Groups
    requires GoneWith(db, gone, t, i)
    ensures t == Templates ==> KeepNotifications(db.notifications, gone) == db.notifications
    ensures t == Recipients ==> KeepNotifications(db.notifications, gone) == WithoutRecipient(db, i).notifications
    ensures t == Groups ==> KeepNotifications(db.notifications, gone) == WithoutGroup(db, i).notifications
  {
  }

  lemma KeepMembers(db: Db, gone: set<Ref>, t: Table, i: Uuid)
    requires t == Templates || t == Recipients || t == Groups
    requires GoneWith(db, gone, t, i)
    ensures t == Templates ==> Erase(db, gone).memberships == db.memberships
    ensures t == Recipients ==> Erase(db, gone).memberships == WithoutRecipient(db, i).memberships
    ensures t == Groups ==> Erase(db, gone).memberships == WithoutGroup(db, i).memberships
  {
  }

  /** The tables that no deletion of a template, a recipient or a group touches. */
  lemma KeepRest(db: Db, gone: set<Ref>, t: Table, i: Uuid)
    requires t == Templates || t == Recipients || t == Groups
    requires GoneWith(db, gone, t, i)
    ensures var next := Erase(db, gone);
      next == db.(templates := next.templates, recipients := next.recipients, groups := next.groups,
                  groupDrafts := next.groupDrafts, memberships := next.memberships,
                  notifications := next.notifications)
  {
    KeepAll(db.users, Users, gone);
    KeepAll(db.templateDrafts, TemplateDrafts, gone);
    KeepAll(db.recipientDrafts, RecipientDrafts, gone);
    KeepAll(db.batches, Batches, gone);
  }

  /** The template is deleted, and the groups and group drafts that used it have none. */
  lemma DeletingATemplate(db: Db, template: Uuid)
    ensures Erase(db, Doomed(db, {Row(Templates, template)})) == WithoutTemplate(db, template)
  {
    var gone := Doomed(db, {Row(Templates, template)});
    DoomedByOneRow(db, Templates, template);
    KeepRest(db, gone, Templates, template);
    KeepAllBut(db.templates, Templates, gone, template);
    KeepAll(db.recipients, Recipients, gone);
    KeepDetached(db.groups, Groups, gone, template);
    KeepDetached(db.groupDrafts, GroupDrafts, gone, template);
    KeepMembers(db, gone, Templates, template);
    KeepLinks(db, gone, Templates, template);
  }

  /** The recipient, its memberships and its notifications are deleted. */
  lemma DeletingARecipient(db: Db, recipient: Uuid)
    ensures Erase(db, Doomed(db, {Row(Recipients, recipient)})) == WithoutRecipient(db, recipient)
  {
    var gone := Doomed(db, {Row(Recipients, recipient)});
    DoomedByOneRow(db, Recipients, recipient);
    KeepRest(db, gone, Recipients, recipient);
    KeepAll(db.templates, Templates, gone);
    KeepAllBut(db.recipients, Recipients, gone, recipient);
    KeepAllGroups(db.groups, Groups, gone);
    KeepAllGroups(db.groupDrafts, GroupDrafts, gone);
    KeepMembers(db, gone, Recipients, recipient);
    KeepLinks(db, gone, Recipients, recipient);
  }

  /** The group, its memberships and its notifications are deleted. */
  lemma DeletingAGroup(db: Db, group: Uuid)
    ensures Erase(db, Doomed(db, {Row(Groups, group)})) == WithoutGroup(db, group)
  {
    var gone := Doomed(db, {Row(Groups, group)});
    DoomedByOneRow(db, Groups, group);
    KeepRest(db, gone, Groups, group);
    KeepAll(db.templates, Templates, gone);
    KeepAll(db.recipients, Recipients, gone);
    KeepAllGroupsBut(db.groups, Groups, gone, group);
    KeepAllGroups(db.groupDrafts, GroupDrafts, gone);
    KeepMembers(db, gone, Groups, group);
    KeepLinks(db, gone, Groups, group);
  }

  // ----- Deleting a user -----

  function TemplatesWithout(templates: map<Uuid, TemplateRow>, user: Uuid): map<Uuid, TemplateRow> {
    map i | i in templates && templates[i].master != user :: templates[i]
  }

  function RecipientsWithout(recipients: map<Uuid, RecipientRow>, user: Uuid): map<Uuid, RecipientRow> {
    map i | i in recipients && recipients[i].master != user :: recipients[i]
  }

  predicate UsesTemplateOf(db: Db, row: GroupRow, user: Uuid) {
    row.template.Some? && row.template.value in db.templates && db.templates[row.template.value].master == user
  }

  function GroupsWithout(db: Db, groups: map<Uuid, GroupRow>, user: Uuid): map<Uuid, GroupRow> {
    map i | i in groups && groups[i].master != user ::
      if UsesTemplateOf(db, groups[i], user) then groups[i].(template := None) else groups[i]
  }

  function BatchesWithout(batches: map<Uuid, BatchRow>, user: Uuid): map<Uuid, BatchRow> {
    map i | i in batches && batches[i].master != user :: batches[i]
  }

  /** The recipient or the group belongs to the user. */
  predicate Touches(db: Db, recipient: Uuid, group: Uuid, user: Uuid) {
    || (recipient in db.recipients && db.recipients[recipient].master == user)
    || (group in db.groups && db.groups[group].master == user)
  }

  function MembershipsWithout(db: Db, user: Uuid): set<Membership> {
    set m | m in db.memberships && !Touches(db, m.recipient, m.group, user)
  }

  function NotificationsWithout(db: Db, user: Uuid): map<Uuid, NotificationRow> {
    map i | i in db.notifications && !Touches(db, db.notifications[i].recipient, db.notifications[i].group, user) ::
      db.notifications[i]
  }

  /** The database without one tenant. A surviving notification keeps its batch. */
  function WithoutUser(db: Db, user: Uuid): Db {
    Db(
      db.users - {user},
      TemplatesWithout(db.templates, user),
      TemplatesWithout(db.templateDrafts, user),
      RecipientsWithout(db.recipients, user),
      RecipientsWithout(db.recipientDrafts, user),
      GroupsWithout(db, db.groups, user),
      GroupsWithout(db, db.groupDrafts, user),
      MembershipsWithout(db, user),
      BatchesWithout(db.batches, user),
      NotificationsWithout(db, user),
      db.contacts)
  }

  /** What goes with a user: the rows with that master, and the links to one of them. */
  ghost predicate GoneWithUser(db: Db, gone: set<Ref>, user: Uuid) {
    && (forall i :: Row(Users, i) in gone <==> i == user)
    && (forall t, i :: t != Users && t != Notifications ==>
          (Row(t, i) in gone <==> i in Ids(db, t) && MasterOf(db, t, i) == user))
    && (forall m :: m in db.memberships ==> (Member(m) in gone <==> Touches(db, m.recipient, m.group, user)))
    && (forall n :: n in db.notifications ==>
          (Row(Notifications, n) in gone <==>
            Touches(db, db.notifications[n].recipient, db.notifications[n].group, user)))
  }

  lemma DirectDependents(db: Db, user: Uuid)
    ensures forall t, i :: Row(t, i) in Dependents(db, {Row(Users, user)}) <==>
      t != Users && t != Notifications && i in Ids(db, t) && MasterOf(db, t, i) == user
    ensures forall m :: Member(m) !in Dependents(db, {Row(Users, user)})
  {
    var root := Row(Users, user);
    forall r
      ensures r in Dependents(db, {root}) <==> Cascades(db, r, root)
    {
      if Cascades(db, r, root) { CascadeClimbsOneLevel(db, r, root); }
    }
    forall t, i
      ensures Cascades(db, Row(t, i), root) <==>
        t != Users && t != Notifications && i in Ids(db, t) && MasterOf(db, t, i) == user
    {
    }
  }

  lemma IndirectDependents(db: Db, direct: set<Ref>, user: Uuid)
    requires direct == Dependents(db, {Row(Users, user)})
    ensures forall r :: r in Dependents(db, direct) ==> r.Member? || r.table == Notifications
    ensures forall m :: m in db.memberships ==>
      (Member(m) in Dependents(db, direct) <==> Touches(db, m.recipient, m.group, user))
    ensures forall n :: n in db.notifications ==>
      (Row(Notifications, n) in Dependents(db, direct) <==>
        Touches(db, db.notifications[n].recipient, db.notifications[n].group, user))
  {
    DirectDependents(db, user);
    SecondLevel(db, {Row(Users, user)});
    forall m | m in db.memberships
      ensures Member(m) in Dependents(db, direct) <==> Touches(db, m.recipient, m.group, user)
    {
      assert Cascades(db, Member(m), Row(Recipients, m.recipient));
      assert Cascades(db, Member(m), Row(Groups, m.group));
    }
    forall n | n in db.notifications
      ensures Row(Notifications, n) in Dependents(db, direct) <==>
        Touches(db, db.notifications[n].recipient, db.notifications[n].group, user)
    {
      assert Cascades(db, Row(Notifications, n), Row(Recipients, db.notifications[n].recipient));
      assert Cascades(db, Row(Notifications, n), Row(Groups, db.notifications[n].group));
    }
  }

  lemma DoomedByUser(db: Db, user: Uuid)
    ensures GoneWithUser(db, Doomed(db, {Row(Users, user)}), user)
  {
    var direct := Dependents(db, {Row(Users, user)});
    DirectDependents(db, user);
    IndirectDependents(db, direct, user);
  }

  lemma KeepOthersTemplates(db: Db, gone: set<Ref>, user: Uuid)
    requires GoneWithUser(db, gone, user)
    ensures Keep(db.templates, Templates, gone) == TemplatesWithout(db.templates, user)
    ensures Keep(db.templateDrafts, TemplateDrafts, gone) == TemplatesWithout(db.templateDrafts, user)
  {
  }

  lemma KeepOthersRecipients(db: Db, gone: set<Ref>, user: Uuid)
    requires GoneWithUser(db, gone, user)
    ensures Keep(db.recipients, Recipients, gone) == RecipientsWithout(db.recipients, user)
    ensures Keep(db.recipientDrafts, RecipientDrafts, gone) == RecipientsWithout(db.recipientDrafts, user)
  {
  }

  lemma KeepOthersGroups(db: Db, gone: set<Ref>, user: Uuid)
    requires GoneWithUser(db, gone, user)
    ensures KeepGroups(db.groups, Groups, gone) == GroupsWithout(db, db.groups, user)
  {
  }

  lemma KeepOthersGroupDrafts(db: Db, gone: set<Ref>, user: Uuid)
    requires GoneWithUser(db, gone, user)
    ensures KeepGroups(db.groupDrafts, GroupDrafts, gone) == GroupsWithout(db, db.groupDrafts, user)
  {
  }

  lemma KeepOthersBatches(db: Db, gone: set<Ref>, user: Uuid)
    requires GoneWithUser(db, gone, user)
    ensures Keep(db.batches, Batches, gone) == BatchesWithout(db.batches, user)
  {
  }

  /** No batch_id becomes NULL: a notification of a deleted batch goes with its recipient and group. */
  lemma KeepOthersNotifications(db: Db, gone: set<Ref>, user: Uuid)
    requires GoneWithUser(db, gone, user) && Coherent(db)
    ensures KeepNotifications(db.notifications, gone) == NotificationsWithout(db, user)
  {
    var kept := KeepNotifications(db.notifications, gone);
    forall i | i in kept
      ensures kept[i] == db.notifications[i]
    {
      assert Grounded(db.notifications[i], db.recipients, db.groups, db.batches);
    }
  }

  /** Deleting a user is the removal of one whole tenant at once. */
  lemma DeletingAUser(db: Db, user: Uuid)
    requires Coherent(db)
    ensures Erase(db, Doomed(db, {Row(Users, user)})) == WithoutUser(db, user)
  {
    var gone := Doomed(db, {Row(Users, user)});
    DoomedByUser(db, user);
    KeepAllBut(db.users, Users, gone, user);
    KeepOthersTemplates(db, gone, user);
    KeepOthersRecipients(db, gone, user);
    KeepOthersGroups(db, gone, user);
    KeepOthersGroupDrafts(db, gone, user);
    KeepOthersBatches(db, gone, user);
    KeepOthersNotifications(db, gone, user);
    assert Erase(db, gone).memberships == MembershipsWithout(db, user);
  }
}
