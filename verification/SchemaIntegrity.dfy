/** The constraints of the schema hold after every history. */
module SchemaIntegrity {
  import opened Tables
  import opened Cascade
  import opened Requests
  import opened History
  import opened Footprints

  lemma MasterSurvives(db: Db, gone: set<Ref>, t: Table)
    requires Closed(db, gone) && t != Users && t != Notifications
    requires forall i :: i in Ids(db, t) ==> MasterOf(db, t, i) in db.users
    ensures forall i :: i in Ids(db, t) && Row(t, i) !in gone ==> MasterOf(db, t, i) in Keep(db.users, Users, gone)
  {
    forall i | i in Ids(db, t) && Row(t, i) !in gone
      ensures MasterOf(db, t, i) in Keep(db.users, Users, gone)
    {
      assert Cascades(db, Row(t, i), Row(Users, MasterOf(db, t, i)));
    }
  }

  lemma TemplateKeysSurvive(db: Db, gone: set<Ref>)
    requires ForeignKeys(db) && Closed(db, gone)
    ensures TemplateKeys(Keep(db.templates, Templates, gone), Keep(db.users, Users, gone))
    ensures TemplateKeys(Keep(db.templateDrafts, TemplateDrafts, gone), Keep(db.users, Users, gone))
  {
    MasterSurvives(db, gone, Templates);
    MasterSurvives(db, gone, TemplateDrafts);
  }

  lemma RecipientKeysSurvive(db: Db, gone: set<Ref>)
    requires ForeignKeys(db) && Closed(db, gone)
    ensures RecipientKeys(Keep(db.recipients, Recipients, gone), Keep(db.users, Users, gone))
    ensures RecipientKeys(Keep(db.recipientDrafts, RecipientDrafts, gone), Keep(db.users, Users, gone))
  {
    MasterSurvives(db, gone, Recipients);
    MasterSurvives(db, gone, RecipientDrafts);
  }

  lemma GroupKeysSurvive(db: Db, gone: set<Ref>)
    requires ForeignKeys(db) && Closed(db, gone)
    ensures GroupKeys(KeepGroups(db.groups, Groups, gone), Keep(db.users, Users, gone),
                      Keep(db.templates, Templates, gone))
  {
    MasterSurvives(db, gone, Groups);
  }

  lemma GroupDraftKeysSurvive(db: Db, gone: set<Ref>)
    requires ForeignKeys(db) && Closed(db, gone)
    ensures GroupKeys(KeepGroups(db.groupDrafts, GroupDrafts, gone), Keep(db.users, Users, gone),
                      Keep(db.templates, Templates, gone))
  {
    MasterSurvives(db, gone, GroupDrafts);
  }

  lemma BatchKeysSurvive(db: Db, gone: set<Ref>)
    requires ForeignKeys(db) && Closed(db, gone)
    ensures BatchKeys(Keep(db.batches, Batches, gone), Keep(db.users, Users, gone))
  {
    MasterSurvives(db, gone, Batches);
  }

  lemma MembershipKeysSurvive(db: Db, gone: set<Ref>)
    requires ForeignKeys(db) && Closed(db, gone)
    ensures MembershipKeys(Erase(db, gone).memberships, Keep(db.recipients, Recipients, gone),
                           KeepGroups(db.groups, Groups, gone))
  {
    forall m | m in db.memberships && Member(m) !in gone
      ensures Row(Recipients, m.recipient) !in gone && Row(Groups, m.group) !in gone
    {
      assert Cascades(db, Member(m), Row(Recipients, m.recipient));
      assert Cascades(db, Member(m), Row(Groups, m.group));
    }
  }

  lemma NotificationKeysSurvive(db: Db, gone: set<Ref>)
    requires ForeignKeys(db) && Closed(db, gone)
    ensures NotificationKeys(KeepNotifications(db.notifications, gone), Keep(db.recipients, Recipients, gone),
                             KeepGroups(db.groups, Groups, gone), Keep(db.batches, Batches, gone))
  {
    forall i | i in db.notifications && Row(Notifications, i) !in gone
      ensures Row(Recipients, db.notifications[i].recipient) !in gone
      ensures Row(Groups, db.notifications[i].group) !in gone
    {
      assert Cascades(db, Row(Notifications, i), Row(Recipients, db.notifications[i].recipient));
      assert Cascades(db, Row(Notifications, i), Row(Groups, db.notifications[i].group));
    }
  }

  /** Deleting a closed set of rows leaves no dangling key. */
  lemma EraseKeepsForeignKeys(db: Db, gone: set<Ref>)
    requires ForeignKeys(db) && Closed(db, gone)
    ensures ForeignKeys(Erase(db, gone))
  {
    TemplateKeysSurvive(db, gone);
    RecipientKeysSurvive(db, gone);
    GroupKeysSurvive(db, gone);
    GroupDraftKeysSurvive(db, gone);
    BatchKeysSurvive(db, gone);
    MembershipKeysSurvive(db, gone);
    NotificationKeysSurvive(db, gone);
  }

  lemma DeletionKeepsForeignKeys(db: Db, roots: set<Ref>)
    requires ForeignKeys(db)
    ensures ForeignKeys(Erase(db, Doomed(db, roots)))
  {
    DoomedIsLeastClosed(db, roots);
    EraseKeepsForeignKeys(db, Doomed(db, roots));
  }

  // One lemma for each request: the checks of the insertions are exactly what the keys need.

  lemma MoreUsersKeepKeys(db: Db, next: Db)
    requires ForeignKeys(db) && next == db.(users := next.users) && db.users.Keys <= next.users.Keys
    ensures ForeignKeys(next)
  {
  }

  lemma CreateUserKeepsKeys(sha: Sha512, db: Db, id: Uuid, data: Credentials, salt: string)
    requires ForeignKeys(db)
    ensures ForeignKeys(CreateUser(sha, db, id, data, salt).db)
  {
    CreateUserFootprint(sha, db, id, data, salt);
    CreatedUserIds(sha, db, id, data, salt);
    MoreUsersKeepKeys(db, CreateUser(sha, db, id, data, salt).db);
  }

  lemma ModifyUserKeepsKeys(sha: Sha512, db: Db, user: Uuid, data: Credentials, salt: string)
    requires ForeignKeys(db)
    ensures ForeignKeys(ModifyUser(sha, db, user, data, salt).db)
  {
    ModifyUserFootprint(sha, db, user, data, salt);
    ModifiedUserIds(sha, db, user, data, salt);
    MoreUsersKeepKeys(db, ModifyUser(sha, db, user, data, salt).db);
  }

  lemma CreateTemplateKeepsKeys(db: Db, user: Uuid, id: Uuid, data: TemplateData)
    requires ForeignKeys(db)
    ensures ForeignKeys(CreateTemplate(db, user, id, data).db)
  {
  }

  lemma ConfirmTemplateKeepsKeys(db: Db, user: Uuid, draft: Uuid, id: Uuid)
    requires ForeignKeys(db)
    ensures ForeignKeys(ConfirmTemplate(db, user, draft, id).db)
  {
  }

  lemma ModifyTemplateKeepsKeys(db: Db, user: Uuid, template: Uuid, data: TemplateData)
    requires ForeignKeys(db)
    ensures ForeignKeys(ModifyTemplate(db, user, template, data).db)
  {
  }

  lemma CreateRecipientKeepsKeys(db: Db, user: Uuid, id: Uuid, data: RecipientData)
    requires ForeignKeys(db)
    ensures ForeignKeys(CreateRecipient(db, user, id, data).db)
  {
  }

  lemma ConfirmRecipientKeepsKeys(db: Db, user: Uuid, draft: Uuid, id: Uuid)
    requires ForeignKeys(db)
    ensures ForeignKeys(ConfirmRecipient(db, user, draft, id).db)
  {
  }

  lemma ModifyRecipientKeepsKeys(db: Db, user: Uuid, recipient: Uuid, data: RecipientData)
    requires ForeignKeys(db)
    ensures ForeignKeys(ModifyRecipient(db, user, recipient, data).db)
  {
  }

  lemma CreateGroupKeepsKeys(db: Db, user: Uuid, id: Uuid, data: GroupData)
    requires ForeignKeys(db)
    ensures ForeignKeys(CreateGroup(db, user, id, data).db)
  {
  }

  lemma ConfirmGroupKeepsKeys(db: Db, user: Uuid, draft: Uuid, id: Uuid)
    requires ForeignKeys(db)
    ensures ForeignKeys(ConfirmGroup(db, user, draft, id).db)
  {
  }

  lemma ModifyGroupKeepsKeys(db: Db, user: Uuid, group: Uuid, data: GroupData)
    requires ForeignKeys(db)
    ensures ForeignKeys(ModifyGroup(db, user, group, data).db)
  {
  }

  lemma AddRecipientKeepsKeys(db: Db, user: Uuid, group: Uuid, recipient: Uuid)
    requires ForeignKeys(db)
    ensures ForeignKeys(AddRecipient(db, user, group, recipient).db)
  {
  }

  lemma RemoveRecipientKeepsKeys(db: Db, user: Uuid, group: Uuid, recipient: Uuid)
    requires ForeignKeys(db)
    ensures ForeignKeys(RemoveRecipient(db, user, group, recipient).db)
  {
  }

  lemma CreateBatchKeepsKeys(db: Db, user: Uuid, id: Uuid)
    requires ForeignKeys(db)
    ensures ForeignKeys(CreateBatch(db, user, id).db)
  {
  }

  lemma MarkSentKeepsKeys(db: Db, user: Uuid, batch: Uuid)
    requires ForeignKeys(db)
    ensures ForeignKeys(MarkSent(db, user, batch))
  {
  }

  lemma CreateNotificationKeepsKeys(
    db: Db, id: Uuid, kind: MessageType, created: int, batch: Uuid, recipient: Uuid, group: Uuid)
    requires ForeignKeys(db)
    ensures ForeignKeys(CreateNotification(db, id, kind, created, batch, recipient, group).db)
  {
  }

  lemma CancelNotificationKeepsKeys(db: Db, user: Uuid, id: Uuid)
    requires ForeignKeys(db)
    ensures ForeignKeys(CancelNotification(db, user, id).db)
  {
  }

  lemma SubscribeKeepsKeys(db: Db, chat: ChatId, known: bool)
    requires ForeignKeys(db)
    ensures ForeignKeys(Subscribe(db, chat, known).db)
  {
  }

  lemma UnsubscribeKeepsKeys(db: Db, chat: ChatId)
    requires ForeignKeys(db)
    ensures ForeignKeys(Unsubscribe(db, chat).db)
  {
  }

  lemma ApplyUserKeepsKeys(sha: Sha512, db: Db, tx: UserTx)
    requires ForeignKeys(db)
    ensures ForeignKeys(ApplyUser(sha, db, tx).db)
  {
    match tx
    case CreateUserTx(id, data, salt) => CreateUserKeepsKeys(sha, db, id, data, salt);
    case ModifyUserTx(user, data, salt) => ModifyUserKeepsKeys(sha, db, user, data, salt);
    case DeleteUserTx(user) => DeletionKeepsForeignKeys(db, {Row(Users, user)});
  }

  lemma ApplyTemplateKeepsKeys(db: Db, tx: TemplateTx)
    requires ForeignKeys(db)
    ensures ForeignKeys(ApplyTemplate(db, tx).db)
  {
    match tx
    case CreateTemplateTx(user, id, data) => CreateTemplateKeepsKeys(db, user, id, data);
    case ConfirmTemplateTx(user, draft, id) => ConfirmTemplateKeepsKeys(db, user, draft, id);
    case ModifyTemplateTx(user, target, data) => ModifyTemplateKeepsKeys(db, user, target, data);
    case DeleteTemplateTx(user, target) => DeletionKeepsForeignKeys(db, {Row(Templates, target)});
  }

  lemma ApplyRecipientKeepsKeys(db: Db, tx: RecipientTx)
    requires ForeignKeys(db)
    ensures ForeignKeys(ApplyRecipient(db, tx).db)
  {
    match tx
    case CreateRecipientTx(user, id, data) => CreateRecipientKeepsKeys(db, user, id, data);
    case ConfirmRecipientTx(user, draft, id) => ConfirmRecipientKeepsKeys(db, user, draft, id);
    case ModifyRecipientTx(user, target, data) => ModifyRecipientKeepsKeys(db, user, target, data);
    case DeleteRecipientTx(user, target) => DeletionKeepsForeignKeys(db, {Row(Recipients, target)});
  }

  lemma ApplyGroupKeepsKeys(db: Db, tx: GroupTx)
    requires ForeignKeys(db)
    ensures ForeignKeys(ApplyGroup(db, tx).db)
  {
    match tx
    case CreateGroupTx(user, id, data) => CreateGroupKeepsKeys(db, user, id, data);
    case ConfirmGroupTx(user, draft, id) => ConfirmGroupKeepsKeys(db, user, draft, id);
    case ModifyGroupTx(user, target, data) => ModifyGroupKeepsKeys(db, user, target, data);
    case AddRecipientTx(user, target, member) => AddRecipientKeepsKeys(db, user, target, member);
    case RemoveRecipientTx(user, target, member) => RemoveRecipientKeepsKeys(db, user, target, member);
    case DeleteGroupTx(user, target) => DeletionKeepsForeignKeys(db, {Row(Groups, target)});
  }

  lemma ApplyNotificationKeepsKeys(db: Db, tx: NotificationTx)
    requires ForeignKeys(db)
    ensures ForeignKeys(ApplyNotification(db, tx).db)
  {
    match tx
    case CreateBatchTx(user, id) => CreateBatchKeepsKeys(db, user, id);
    case MarkSentTx(user, batch) => MarkSentKeepsKeys(db, user, batch);
    case CreateNotificationTx(id, created, batch, member, target) =>
      CreateNotificationKeepsKeys(db, id, Telegram, created, batch, member, target);
    case CancelNotificationTx(user, target) => CancelNotificationKeepsKeys(db, user, target);
  }

  lemma ApplyContactKeepsKeys(db: Db, tx: BotTx)
    requires ForeignKeys(db)
    ensures ForeignKeys(ApplyContact(db, tx).db)
  {
    match tx
    case SubscribeTx(chat, known) => SubscribeKeepsKeys(db, chat, known);
    case UnsubscribeTx(chat) => UnsubscribeKeepsKeys(db, chat);
  }

  /** Every transaction keeps the foreign keys, whatever it asks for. */
  lemma ApplyKeepsForeignKeys(sha: Sha512, db: Db, tx: Tx)
    requires ForeignKeys(db)
    ensures ForeignKeys(Apply(sha, db, tx).db)
  {
    match tx
    case OnUser(t) => ApplyUserKeepsKeys(sha, db, t);
    case OnTemplate(t) => ApplyTemplateKeepsKeys(db, t);
    case OnRecipient(t) => ApplyRecipientKeepsKeys(db, t);
    case OnGroup(t) => ApplyGroupKeepsKeys(db, t);
    case OnNotification(t) => ApplyNotificationKeepsKeys(db, t);
    case OnContact(t) => ApplyContactKeepsKeys(db, t);
  }

  lemma UserRequestsKeepNames(sha: Sha512, db: Db, tx: UserTx)
    requires UniqueNames(db.users)
    ensures UniqueNames(ApplyUser(sha, db, tx).db.users)
  {
  }

  lemma ApplyKeepsUniqueNames(sha: Sha512, db: Db, tx: Tx)
    requires UniqueNames(db.users)
    ensures UniqueNames(Apply(sha, db, tx).db.users)
  {
    match tx
    case OnUser(t) => UserRequestsKeepNames(sha, db, t);
    case _ => OnlyUserRequestsTouchUsers(sha, db, tx);
  }

  /** All primary, unique and foreign keys hold after every history of transactions. */
  lemma {:induction false} EveryStateHasIntegrity(sha: Sha512, h: seq<Tx>)
    ensures Integrity(Exec(sha, h))
    decreases |h|
  {
    if h != [] {
      EveryStateHasIntegrity(sha, h[..|h| - 1]);
      ApplyKeepsForeignKeys(sha, Exec(sha, h[..|h| - 1]), h[|h| - 1]);
      ApplyKeepsUniqueNames(sha, Exec(sha, h[..|h| - 1]), h[|h| - 1]);
    }
  }
}
