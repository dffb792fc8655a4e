/** Tenant coherence: which transactions keep it, and what follows from it. */
module Coherence {
  import opened Tables
  import opened Deletions
  import opened Requests
  import opened History
  import opened Footprints

  lemma WithoutUserKeepsCoherence(db: Db, user: Uuid)
    requires Coherent(db)
    ensures Coherent(WithoutUser(db, user))
  {
    var next := WithoutUser(db, user);
    forall m | m in next.memberships
      ensures MembershipReferences(m, next.recipients, next.groups)
      ensures next.recipients[m.recipient].master == next.groups[m.group].master
    {
      assert MembershipReferences(m, db.recipients, db.groups);
    }
    forall i | i in next.notifications
      ensures Grounded(next.notifications[i], next.recipients, next.groups, next.batches)
    {
      assert Grounded(db.notifications[i], db.recipients, db.groups, db.batches);
    }
  }

  lemma UserRequestsKeepCoherence(sha: Sha512, db: Db, tx: UserTx)
    requires Coherent(db)
    ensures Coherent(ApplyUser(sha, db, tx).db)
  {
    if tx.DeleteUserTx? {
      DeletingAUser(db, tx.user);
      WithoutUserKeepsCoherence(db, tx.user);
    } else {
      UserFootprint(sha, db, tx);
    }
  }

  lemma DetachKeepsCoherence(db: Db, groups: map<Uuid, GroupRow>)
    requires Coherent(db)
    requires GroupsGrow(db.groups, groups)
    ensures Coherent(db.(groups := groups))
  {
    forall i | i in db.notifications
      ensures Grounded(db.notifications[i], db.recipients, groups, db.batches)
    {
      assert Grounded(db.notifications[i], db.recipients, db.groups, db.batches);
    }
  }

  lemma TemplateRequestsKeepCoherence(db: Db, tx: TemplateTx)
    requires Coherent(db)
    ensures Coherent(ApplyTemplate(db, tx).db)
  {
    if tx.DeleteTemplateTx? {
      TemplateDeletionKeepsCoherence(db, tx.user, tx.target);
    } else {
      TemplateFootprint(db, tx);
      TemplateEditsLeaveGroups(db, tx);
    }
  }

  lemma TemplateDeletionKeepsCoherence(db: Db, user: Uuid, template: Uuid)
    requires Coherent(db)
    ensures Coherent(DeleteTemplate(db, user, template).db)
  {
    if OwnsTemplate(db, user, template) {
      DeletingATemplate(db, template);
      DetachKeepsCoherence(db, DeleteTemplate(db, user, template).db.groups);
    }
  }

  lemma RecipientsKeepCoherence(db: Db, recipients: map<Uuid, RecipientRow>)
    requires Coherent(db)
    requires db.recipients.Keys <= recipients.Keys
    requires forall i :: i in db.recipients ==> recipients[i].master == db.recipients[i].master
    ensures Coherent(db.(recipients := recipients))
  {
    forall i | i in db.notifications
      ensures Grounded(db.notifications[i], recipients, db.groups, db.batches)
    {
      assert Grounded(db.notifications[i], db.recipients, db.groups, db.batches);
    }
  }

  lemma WithoutRecipientKeepsCoherence(db: Db, recipient: Uuid)
    requires Coherent(db)
    ensures Coherent(WithoutRecipient(db, recipient))
  {
    var next := WithoutRecipient(db, recipient);
    forall i | i in next.notifications
      ensures Grounded(next.notifications[i], next.recipients, next.groups, next.batches)
    {
      assert Grounded(db.notifications[i], db.recipients, db.groups, db.batches);
    }
  }

  lemma RecipientTableGrows(db: Db, tx: RecipientTx)
    requires !tx.DeleteRecipientTx?
    ensures var next := ApplyRecipient(db, tx).db;
      && next.memberships == db.memberships && next.notifications == db.notifications
      && db.recipients.Keys <= next.recipients.Keys
      && forall i :: i in db.recipients ==> next.recipients[i].master == db.recipients[i].master
  {
    match tx
    case CreateRecipientTx(user, id, data) => CreateRecipientFootprint(db, user, id, data);
    case ConfirmRecipientTx(user, draft, id) =>
      ConfirmRecipientFootprint(db, user, draft, id);
      ConfirmedRecipientsGrow(db, user, draft, id);
    case ModifyRecipientTx(user, target, data) =>
      ModifyRecipientFootprint(db, user, target, data);
      ModifiedRecipientsGrow(db, user, target, data);
  }

  lemma ConfirmedRecipientsGrow(db: Db, user: Uuid, draft: Uuid, id: Uuid)
    ensures forall i :: i in db.recipients ==>
      i in ConfirmRecipient(db, user, draft, id).db.recipients
      && ConfirmRecipient(db, user, draft, id).db.recipients[i] == db.recipients[i]
  {
  }

  lemma ModifiedRecipientsGrow(db: Db, user: Uuid, target: Uuid, data: RecipientData)
    ensures forall i :: i in db.recipients ==>
      i in ModifyRecipient(db, user, target, data).db.recipients
      && ModifyRecipient(db, user, target, data).db.recipients[i].master == db.recipients[i].master
  {
  }

  lemma RecipientRequestsKeepCoherence(db: Db, tx: RecipientTx)
    requires Coherent(db)
    ensures Coherent(ApplyRecipient(db, tx).db)
  {
    if tx.DeleteRecipientTx? {
      DeletingARecipient(db, tx.target);
      WithoutRecipientKeepsCoherence(db, tx.target);
    } else {
      RecipientTableGrows(db, tx);
      RecipientFootprint(db, tx);
      RecipientsKeepCoherence(db, ApplyRecipient(db, tx).db.recipients);
    }
  }

  lemma WithoutGroupKeepsCoherence(db: Db, group: Uuid)
    requires Coherent(db)
    ensures Coherent(WithoutGroup(db, group))
  {
    var next := WithoutGroup(db, group);
    forall i | i in next.notifications
      ensures Grounded(next.notifications[i], next.recipients, next.groups, next.batches)
    {
      assert Grounded(db.notifications[i], db.recipients, db.groups, db.batches);
    }
  }

  lemma MembersKeepCoherence(db: Db, memberships: set<Membership>)
    requires Coherent(db)
    requires forall m :: m in memberships - db.memberships ==>
      && MembershipReferences(m, db.recipients, db.groups)
      && db.recipients[m.recipient].master == db.groups[m.group].master
    ensures Coherent(db.(memberships := memberships))
  {
  }

  ghost predicate GroupsGrow(groups: map<Uuid, GroupRow>, next: map<Uuid, GroupRow>) {
    forall i :: i in groups ==> i in next && next[i].master == groups[i].master
  }

  lemma ConfirmedGroupsGrow(db: Db, user: Uuid, draft: Uuid, id: Uuid)
    ensures GroupsGrow(db.groups, ConfirmGroup(db, user, draft, id).db.groups)
  {
  }

  lemma ModifiedGroupsGrow(db: Db, user: Uuid, group: Uuid, data: GroupData)
    ensures GroupsGrow(db.groups, ModifyGroup(db, user, group, data).db.groups)
  {
    var next := ModifyGroup(db, user, group, data).db;
    if next != db {
      assert OwnsGroup(db, user, group);
      assert next.groups == db.groups[group := next.groups[group]] && next.groups[group].master == user;
    }
  }

  lemma GroupTableGrows(db: Db, tx: GroupTx)
    requires tx.CreateGroupTx? || tx.ConfirmGroupTx? || tx.ModifyGroupTx?
    ensures GroupsGrow(db.groups, ApplyGroup(db, tx).db.groups)
  {
    match tx
    case CreateGroupTx(user, id, data) => assert CreateGroup(db, user, id, data).db.groups == db.groups;
    case ConfirmGroupTx(user, draft, id) => ConfirmedGroupsGrow(db, user, draft, id);
    case ModifyGroupTx(user, group, data) => ModifiedGroupsGrow(db, user, group, data);
  }

  lemma GroupEditsLeaveLinks(db: Db, tx: GroupTx)
    requires tx.CreateGroupTx? || tx.ConfirmGroupTx? || tx.ModifyGroupTx?
    ensures ApplyGroup(db, tx).db.memberships == db.memberships
    ensures ApplyGroup(db, tx).db.notifications == db.notifications
  {
    match tx
    case CreateGroupTx(user, id, data) => CreateGroupFootprint(db, user, id, data);
    case ConfirmGroupTx(user, draft, id) => ConfirmGroupFootprint(db, user, draft, id);
    case ModifyGroupTx(user, group, data) => ModifyGroupFootprint(db, user, group, data);
  }

  lemma GroupEditsKeepCoherence(db: Db, tx: GroupTx)
    requires Coherent(db)
    requires tx.CreateGroupTx? || tx.ConfirmGroupTx? || tx.ModifyGroupTx?
    ensures Coherent(ApplyGroup(db, tx).db)
  {
    GroupTableGrows(db, tx);
    GroupEditsLeaveLinks(db, tx);
    GroupFootprint(db, tx);
    DetachKeepsCoherence(db, ApplyGroup(db, tx).db.groups);
  }

  lemma MemberEdits(db: Db, tx: GroupTx)
    requires tx.AddRecipientTx? || tx.RemoveRecipientTx?
    ensures var next := ApplyGroup(db, tx).db;
      && next == db.(memberships := next.memberships)
      && forall m :: m in next.memberships - db.memberships ==>
           && MembershipReferences(m, db.recipients, db.groups)
           && db.recipients[m.recipient].master == db.groups[m.group].master
  {
    match tx
    case AddRecipientTx(user, group, recipient) =>
      AddRecipientFootprint(db, user, group, recipient);
      AddedMember(db, user, group, recipient);
    case RemoveRecipientTx(user, group, recipient) =>
      RemoveRecipientFootprint(db, user, group, recipient);
      RemovedMember(db, user, group, recipient);
  }

  /** Only a recipient and a group of the same user are linked. */
  lemma AddedMember(db: Db, user: Uuid, group: Uuid, recipient: Uuid)
    ensures forall m :: m in AddRecipient(db, user, group, recipient).db.memberships - db.memberships ==>
      m == Membership(recipient, group) && OwnsGroup(db, user, group) && OwnsRecipient(db, user, recipient)
  {
  }

  lemma RemovedMember(db: Db, user: Uuid, group: Uuid, recipient: Uuid)
    ensures RemoveRecipient(db, user, group, recipient).db.memberships <= db.memberships
  {
  }

  lemma GroupRequestsKeepCoherence(db: Db, tx: GroupTx)
    requires Coherent(db)
    ensures Coherent(ApplyGroup(db, tx).db)
  {
    if tx.DeleteGroupTx? {
      DeletingAGroup(db, tx.target);
      WithoutGroupKeepsCoherence(db, tx.target);
    } else if tx.AddRecipientTx? || tx.RemoveRecipientTx? {
      MemberEdits(db, tx);
      MembersKeepCoherence(db, ApplyGroup(db, tx).db.memberships);
    } else {
      GroupEditsKeepCoherence(db, tx);
    }
  }

  /** The notification to insert, if its keys exist, stays within one tenant and belongs to a sent batch. */
  ghost predicate Justified(db: Db, tx: NotificationTx) {
    tx.CreateNotificationTx? && tx.batch in db.batches && tx.member in db.recipients && tx.target in db.groups ==>
      Grounded(TelegramNotification(tx.created, tx.batch, tx.member, tx.target), db.recipients, db.groups, db.batches)
  }

  lemma BatchesKeepCoherence(db: Db, batches: map<Uuid, BatchRow>)
    requires Coherent(db)
    requires BatchesGrow(db.batches, batches)
    ensures Coherent(db.(batches := batches))
  {
    forall i | i in db.notifications
      ensures Grounded(db.notifications[i], db.recipients, db.groups, batches)
    {
      assert Grounded(db.notifications[i], db.recipients, db.groups, db.batches);
    }
  }

  lemma NotificationEditsKeepCoherence(db: Db, tx: NotificationTx)
    requires Coherent(db) && Justified(db, tx)
    requires tx.CreateNotificationTx? || tx.CancelNotificationTx?
    ensures Coherent(ApplyNotification(db, tx).db)
  {
  }

  /** Batches keep their owner, and sent never goes back to false. */
  ghost predicate BatchesGrow(batches: map<Uuid, BatchRow>, next: map<Uuid, BatchRow>) {
    forall i :: i in batches ==>
      i in next && next[i].master == batches[i].master && (batches[i].sent ==> next[i].sent)
  }

  lemma BatchTableGrows(db: Db, tx: NotificationTx)
    ensures BatchesGrow(db.batches, ApplyNotification(db, tx).db.batches)
  {
  }

  lemma NotificationRequestsKeepCoherence(db: Db, tx: NotificationTx)
    requires Coherent(db) && Justified(db, tx)
    ensures Coherent(ApplyNotification(db, tx).db)
  {
    if tx.CreateBatchTx? || tx.MarkSentTx? {
      BatchTableGrows(db, tx);
      assert ApplyNotification(db, tx).db == db.(batches := ApplyNotification(db, tx).db.batches);
      BatchesKeepCoherence(db, ApplyNotification(db, tx).db.batches);
    } else {
      NotificationEditsKeepCoherence(db, tx);
    }
  }

  /** Every transaction keeps coherence, an inserted notification only when it is justified. */
  lemma ApplyKeepsCoherence(sha: Sha512, db: Db, tx: Tx)
    requires Coherent(db)
    requires tx.OnNotification? ==> Justified(db, tx.notification)
    ensures Coherent(Apply(sha, db, tx).db)
  {
    match tx
    case OnUser(t) => UserRequestsKeepCoherence(sha, db, t);
    case OnTemplate(t) => TemplateRequestsKeepCoherence(db, t);
    case OnRecipient(t) => RecipientRequestsKeepCoherence(db, t);
    case OnGroup(t) => GroupRequestsKeepCoherence(db, t);
    case OnNotification(t) => NotificationRequestsKeepCoherence(db, t);
    case OnContact(t) => ContactFootprint(db, t);
  }

  // ----- Listing notifications -----

  /** The inner join with the batches loses nothing: every notification is listed for exactly one user,
      the owner of its group and of its recipient, and it is still pending. */
  lemma EachNotificationHasOneReader(db: Db, i: Uuid, user: Uuid)
    requires Coherent(db) && i in db.notifications
    ensures db.notifications[i].group in db.groups && db.notifications[i].recipient in db.recipients
    ensures i in ListAll(db, user) <==> user == db.groups[db.notifications[i].group].master
    ensures i in ListAll(db, user) <==> user == db.recipients[db.notifications[i].recipient].master
    ensures i in ListPending(db, user) <==> i in ListAll(db, user)
  {
    assert Grounded(db.notifications[i], db.recipients, db.groups, db.batches);
  }
}
