/** The tables that each component can change. */
module Footprints {
  import opened Prelude
  import opened Tables
  import opened Deletions
  import opened Requests
  import opened History

  // ----- One lemma for each request: the tables it can change, and how it can change them -----

  lemma CreateUserFootprint(sha: Sha512, db: Db, id: Uuid, data: Credentials, salt: string)
    ensures var next := CreateUser(sha, db, id, data, salt).db;
      next == db.(users := next.users)
  {
    var next := CreateUser(sha, db, id, data, salt).db;
    if NameTaken(db, data.name) || id in db.users {
      assert next == db;
    }
  }

  lemma ModifyUserFootprint(sha: Sha512, db: Db, user: Uuid, data: Credentials, salt: string)
    ensures var next := ModifyUser(sha, db, user, data, salt).db;
      next == db.(users := next.users)
  {
    if ModifyUser(sha, db, user, data, salt).reply.Err? {
      assert ModifyUser(sha, db, user, data, salt).db == db;
    }
  }

  lemma CreatedUserIds(sha: Sha512, db: Db, id: Uuid, data: Credentials, salt: string)
    ensures CreateUser(sha, db, id, data, salt).db.users.Keys <= db.users.Keys + {id}
    ensures db.users.Keys <= CreateUser(sha, db, id, data, salt).db.users.Keys
  {
  }

  lemma ModifiedUserIds(sha: Sha512, db: Db, user: Uuid, data: Credentials, salt: string)
    ensures ModifyUser(sha, db, user, data, salt).db.users.Keys == db.users.Keys
  {
    if ModifyUser(sha, db, user, data, salt).reply.Err? {
      assert ModifyUser(sha, db, user, data, salt).db == db;
    } else {
      assert ModifyUser(sha, db, user, data, salt).db.users.Keys == db.users.Keys + {user};
    }
  }

  /** Only the deletion of a user touches another table than that of the users. */
  lemma UserFootprint(sha: Sha512, db: Db, tx: UserTx)
    requires !tx.DeleteUserTx?
    ensures var next := ApplyUser(sha, db, tx).db;
      next == db.(users := next.users)
  {
    match tx
    case CreateUserTx(id, data, salt) => CreateUserFootprint(sha, db, id, data, salt);
    case ModifyUserTx(user, data, salt) => ModifyUserFootprint(sha, db, user, data, salt);
  }

  lemma CreateTemplateFootprint(db: Db, user: Uuid, id: Uuid, data: TemplateData)
    ensures var next := CreateTemplate(db, user, id, data).db;
      next == db.(templateDrafts := next.templateDrafts)
  {
    if CreateTemplate(db, user, id, data).reply.Err? {
      assert CreateTemplate(db, user, id, data).db == db;
    }
  }

  lemma ConfirmTemplateFootprint(db: Db, user: Uuid, draft: Uuid, id: Uuid)
    ensures var next := ConfirmTemplate(db, user, draft, id).db;
      && next == db.(templates := next.templates, templateDrafts := next.templateDrafts)
      && db.templates.Keys <= next.templates.Keys
  {
    if ConfirmTemplate(db, user, draft, id).reply.Err? {
      assert ConfirmTemplate(db, user, draft, id).db == db;
    }
  }

  lemma ModifyTemplateFootprint(db: Db, user: Uuid, target: Uuid, data: TemplateData)
    ensures var next := ModifyTemplate(db, user, target, data).db;
      next == db.(templates := next.templates) && next.templates.Keys == db.templates.Keys
  {
    if ModifyTemplate(db, user, target, data).reply.Err? {
      assert ModifyTemplate(db, user, target, data).db == db;
    }
  }

  lemma TemplateFootprint(db: Db, tx: TemplateTx)
    ensures var next := ApplyTemplate(db, tx).db;
      next == db.(templates := next.templates, templateDrafts := next.templateDrafts,
                  groups := next.groups, groupDrafts := next.groupDrafts)
  {
    match tx
    case CreateTemplateTx(user, id, data) => CreateTemplateFootprint(db, user, id, data);
    case ConfirmTemplateTx(user, draft, id) => ConfirmTemplateFootprint(db, user, draft, id);
    case ModifyTemplateTx(user, target, data) => ModifyTemplateFootprint(db, user, target, data);
    case DeleteTemplateTx(user, target) => DeletingATemplate(db, target);
  }

  /** Only the deletion of a template touches groups, and only it removes a template. */
  lemma TemplateEditsLeaveGroups(db: Db, tx: TemplateTx)
    requires !tx.DeleteTemplateTx?
    ensures ApplyTemplate(db, tx).db.groups == db.groups && ApplyTemplate(db, tx).db.groupDrafts == db.groupDrafts
    ensures db.templates.Keys <= ApplyTemplate(db, tx).db.templates.Keys
  {
    match tx
    case CreateTemplateTx(user, id, data) => CreateTemplateFootprint(db, user, id, data);
    case ConfirmTemplateTx(user, draft, id) => ConfirmTemplateFootprint(db, user, draft, id);
    case ModifyTemplateTx(user, target, data) => ModifyTemplateFootprint(db, user, target, data);
  }

  lemma CreateRecipientFootprint(db: Db, user: Uuid, id: Uuid, data: RecipientData)
    ensures var next := CreateRecipient(db, user, id, data).db;
      next == db.(recipientDrafts := next.recipientDrafts)
  {
    if CreateRecipient(db, user, id, data).reply.Err? {
      assert CreateRecipient(db, user, id, data).db == db;
    }
  }

  lemma ConfirmRecipientFootprint(db: Db, user: Uuid, draft: Uuid, id: Uuid)
    ensures var next := ConfirmRecipient(db, user, draft, id).db;
      next == db.(recipients := next.recipients, recipientDrafts := next.recipientDrafts)
  {
    if ConfirmRecipient(db, user, draft, id).reply.Err? {
      assert ConfirmRecipient(db, user, draft, id).db == db;
    }
  }

  lemma ModifyRecipientFootprint(db: Db, user: Uuid, target: Uuid, data: RecipientData)
    ensures var next := ModifyRecipient(db, user, target, data).db;
      next == db.(recipients := next.recipients)
  {
    if ModifyRecipient(db, user, target, data).reply.Err? {
      assert ModifyRecipient(db, user, target, data).db == db;
    }
  }

  lemma RecipientFootprint(db: Db, tx: RecipientTx)
    ensures var next := ApplyRecipient(db, tx).db;
      next == db.(recipients := next.recipients, recipientDrafts := next.recipientDrafts,
                  memberships := next.memberships, notifications := next.notifications)
  {
    match tx
    case CreateRecipientTx(user, id, data) => CreateRecipientFootprint(db, user, id, data);
    case ConfirmRecipientTx(user, draft, id) => ConfirmRecipientFootprint(db, user, draft, id);
    case ModifyRecipientTx(user, target, data) => ModifyRecipientFootprint(db, user, target, data);
    case DeleteRecipientTx(user, target) => DeletingARecipient(db, target);
  }

  lemma CreateGroupFootprint(db: Db, user: Uuid, id: Uuid, data: GroupData)
    ensures var next := CreateGroup(db, user, id, data).db;
      next == db.(groupDrafts := next.groupDrafts)
  {
    if CreateGroup(db, user, id, data).reply.Err? {
      assert CreateGroup(db, user, id, data).db == db;
    }
  }

  lemma ConfirmGroupFootprint(db: Db, user: Uuid, draft: Uuid, id: Uuid)
    ensures var next := ConfirmGroup(db, user, draft, id).db;
      next == db.(groups := next.groups, templateDrafts := next.templateDrafts)
  {
    if ConfirmGroup(db, user, draft, id).reply.Err? {
      assert ConfirmGroup(db, user, draft, id).db == db;
    }
  }

  lemma ModifyGroupFootprint(db: Db, user: Uuid, target: Uuid, data: GroupData)
    ensures var next := ModifyGroup(db, user, target, data).db;
      next == db.(groups := next.groups)
  {
    if ModifyGroup(db, user, target, data).reply.Err? {
      assert ModifyGroup(db, user, target, data).db == db;
    }
  }

  lemma AddRecipientFootprint(db: Db, user: Uuid, target: Uuid, member: Uuid)
    ensures var next := AddRecipient(db, user, target, member).db;
      next == db.(memberships := next.memberships)
  {
    if AddRecipient(db, user, target, member).reply.Err? {
      assert AddRecipient(db, user, target, member).db == db;
    }
  }

  lemma RemoveRecipientFootprint(db: Db, user: Uuid, target: Uuid, member: Uuid)
    ensures var next := RemoveRecipient(db, user, target, member).db;
      next == db.(memberships := next.memberships)
  {
    if RemoveRecipient(db, user, target, member).reply.Err? {
      assert RemoveRecipient(db, user, target, member).db == db;
    }
  }

  lemma GroupFootprint(db: Db, tx: GroupTx)
    ensures var next := ApplyGroup(db, tx).db;
      next == db.(groups := next.groups, groupDrafts := next.groupDrafts, templateDrafts := next.templateDrafts,
                  memberships := next.memberships, notifications := next.notifications)
  {
    match tx
    case CreateGroupTx(user, id, data) => CreateGroupFootprint(db, user, id, data);
    case ConfirmGroupTx(user, draft, id) => ConfirmGroupFootprint(db, user, draft, id);
    case ModifyGroupTx(user, target, data) => ModifyGroupFootprint(db, user, target, data);
    case DeleteGroupTx(user, target) => DeletingAGroup(db, target);
    case AddRecipientTx(user, target, member) => AddRecipientFootprint(db, user, target, member);
    case RemoveRecipientTx(user, target, member) => RemoveRecipientFootprint(db, user, target, member);
  }

  lemma CreateNotificationFootprint(
    db: Db, id: Uuid, kind: MessageType, created: int, batch: Uuid, member: Uuid, target: Uuid)
    ensures var next := CreateNotification(db, id, kind, created, batch, member, target).db;
      next == db.(notifications := next.notifications)
  {
    if CreateNotification(db, id, kind, created, batch, member, target).reply.Err? {
      assert CreateNotification(db, id, kind, created, batch, member, target).db == db;
    }
  }

  lemma CancelNotificationFootprint(db: Db, user: Uuid, target: Uuid)
    ensures var next := CancelNotification(db, user, target).db;
      next == db.(notifications := next.notifications)
  {
    if CancelNotification(db, user, target).reply.Err? {
      assert CancelNotification(db, user, target).db == db;
    }
  }

  lemma CreateBatchFootprint(db: Db, user: Uuid, id: Uuid)
    ensures var next := CreateBatch(db, user, id).db;
      next == db.(batches := next.batches)
  {
    if CreateBatch(db, user, id).reply.Err? {
      assert CreateBatch(db, user, id).db == db;
    }
  }

  lemma MarkSentFootprint(db: Db, user: Uuid, batch: Uuid)
    ensures MarkSent(db, user, batch) == db.(batches := MarkSent(db, user, batch).batches)
  {
  }

  lemma NotificationFootprint(db: Db, tx: NotificationTx)
    ensures var next := ApplyNotification(db, tx).db;
      next == db.(batches := next.batches, notifications := next.notifications)
  {
    match tx
    case CreateBatchTx(user, id) => CreateBatchFootprint(db, user, id);
    case MarkSentTx(user, batch) => MarkSentFootprint(db, user, batch);
    case CreateNotificationTx(id, created, batch, member, target) =>
      CreateNotificationFootprint(db, id, Telegram, created, batch, member, target);
    case CancelNotificationTx(user, target) => CancelNotificationFootprint(db, user, target);
  }

  /** A command is applied, or it changes nothing. */
  lemma SubscribeFootprint(db: Db, c: ChatId, known: bool)
    ensures var outcome := Subscribe(db, c, known);
      outcome.db == db.(contacts := if outcome.reply == Ok(Done) then db.contacts[c := true] else db.contacts)
  {
    if Subscribe(db, c, known).reply != Ok(Done) {
      assert Subscribe(db, c, known).db == db;
    }
  }

  lemma UnsubscribeFootprint(db: Db, c: ChatId)
    ensures var outcome := Unsubscribe(db, c);
      outcome.db == db.(contacts := if outcome.reply == Ok(Done) then db.contacts[c := false] else db.contacts)
  {
    if Unsubscribe(db, c).reply != Ok(Done) {
      assert Unsubscribe(db, c).db == db;
    }
  }

  lemma ContactFootprint(db: Db, tx: BotTx)
    ensures ApplyContact(db, tx).db == db.(contacts := ApplyContact(db, tx).db.contacts)
  {
    match tx
    case SubscribeTx(c, known) =>
      SubscribeFootprint(db, c, known);
      assert ApplyContact(db, tx) == Subscribe(db, c, known);
    case UnsubscribeTx(c) =>
      UnsubscribeFootprint(db, c);
      assert ApplyContact(db, tx) == Unsubscribe(db, c);
  }

  lemma OnlyUserRequestsTouchUsers(sha: Sha512, db: Db, tx: Tx)
    requires !tx.OnUser?
    ensures Apply(sha, db, tx).db.users == db.users
  {
    match tx
    case OnTemplate(t) => TemplateFootprint(db, t);
    case OnRecipient(t) => RecipientFootprint(db, t);
    case OnGroup(t) => GroupFootprint(db, t);
    case OnNotification(t) => NotificationFootprint(db, t);
    case OnContact(t) => ContactFootprint(db, t);
  }

  lemma UsersLeaveContacts(sha: Sha512, db: Db, tx: UserTx)
    ensures ApplyUser(sha, db, tx).db.contacts == db.contacts
  {
    if !tx.DeleteUserTx? { UserFootprint(sha, db, tx); }
  }

  lemma OnlyCommandsTouchContacts(sha: Sha512, db: Db, tx: Tx)
    requires !tx.OnContact?
    ensures Apply(sha, db, tx).db.contacts == db.contacts
  {
    match tx
    case OnUser(t) => UsersLeaveContacts(sha, db, t);
    case OnTemplate(t) => TemplateFootprint(db, t);
    case OnRecipient(t) => RecipientFootprint(db, t);
    case OnGroup(t) => GroupFootprint(db, t);
    case OnNotification(t) => NotificationFootprint(db, t);
  }

  lemma UsersOnlyDropBatches(sha: Sha512, db: Db, tx: UserTx)
    ensures forall b :: b in ApplyUser(sha, db, tx).db.batches ==>
      b in db.batches && ApplyUser(sha, db, tx).db.batches[b] == db.batches[b]
  {
    if !tx.DeleteUserTx? { UserFootprint(sha, db, tx); }
  }

  /** Outside the notification manager, batches only disappear, with their user. */
  lemma OthersOnlyDropBatches(sha: Sha512, db: Db, tx: Tx)
    requires !tx.OnNotification?
    ensures forall b :: b in Apply(sha, db, tx).db.batches ==>
      b in db.batches && Apply(sha, db, tx).db.batches[b] == db.batches[b]
  {
    match tx
    case OnUser(t) => UsersOnlyDropBatches(sha, db, t);
    case OnTemplate(t) => TemplateFootprint(db, t);
    case OnRecipient(t) => RecipientFootprint(db, t);
    case OnGroup(t) => GroupFootprint(db, t);
    case OnContact(t) => ContactFootprint(db, t);
  }

  // ----- All or nothing -----

  /** A transaction that fails, or answers that nothing had to change, leaves the database as it was. */
  lemma FailuresChangeNothing(sha: Sha512, db: Db, tx: Tx)
    requires Apply(sha, db, tx).reply.Err? || Apply(sha, db, tx).reply == Ok(NotChanged)
    ensures Apply(sha, db, tx).db == db
  {
    match tx
    case OnUser(t) => FailedUserRequest(sha, db, t);
    case OnTemplate(t) => FailedTemplateRequest(db, t);
    case OnRecipient(t) => FailedRecipientRequest(db, t);
    case OnGroup(t) => FailedGroupRequest(db, t);
    case OnNotification(t) => FailedNotificationRequest(db, t);
    case OnContact(t) => FailedCommand(db, t);
  }

  predicate Failed(r: Result<Reply>) {
    r.Err? || r.value == NotChanged
  }

  lemma FailedUserRequest(sha: Sha512, db: Db, tx: UserTx)
    ensures Failed(ApplyUser(sha, db, tx).reply) ==> ApplyUser(sha, db, tx).db == db
  {
  }

  lemma FailedTemplateRequest(db: Db, tx: TemplateTx)
    ensures Failed(ApplyTemplate(db, tx).reply) ==> ApplyTemplate(db, tx).db == db
  {
  }

  lemma FailedRecipientRequest(db: Db, tx: RecipientTx)
    ensures Failed(ApplyRecipient(db, tx).reply) ==> ApplyRecipient(db, tx).db == db
  {
  }

  lemma FailedGroupRequest(db: Db, tx: GroupTx)
    ensures Failed(ApplyGroup(db, tx).reply) ==> ApplyGroup(db, tx).db == db
  {
  }

  lemma FailedNotificationRequest(db: Db, tx: NotificationTx)
    ensures Failed(ApplyNotification(db, tx).reply) ==> ApplyNotification(db, tx).db == db
  {
  }

  lemma FailedCommand(db: Db, tx: BotTx)
    ensures Failed(ApplyContact(db, tx).reply) ==> ApplyContact(db, tx).db == db
  {
  }
}
