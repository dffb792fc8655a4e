/** What each request answers and stores, column by column, and when: in terms of the rows alone. */
module RequestEffects {
  import opened Prelude
  import opened Tables
  import opened Deletions
  import opened Requests

  /** Row i is stored afterwards, and every other row is as before. */
  ghost predicate OnlyRow<R(!new)>(before: map<Uuid, R>, after: map<Uuid, R>, i: Uuid) {
    && i in after
    && (forall j :: j != i ==> (j in after <==> j in before))
    && (forall j :: j != i && j in before ==> after[j] == before[j])
  }

  // ----- Users -----

  predicate NameInUse(db: Db, name: string, i: Uuid) {
    i in db.users && db.users[i].name == name
  }

  lemma CreatedUser(sha: Sha512, db: Db, id: Uuid, data: Credentials, salt: string)
    ensures var outcome := CreateUser(sha, db, id, data, salt);
      var next := outcome.db;
      && (outcome.reply.Err? ==> next == db)
      && (outcome.reply == Err(UserAlreadyExists) <==> exists i :: NameInUse(db, data.name, i))
      && (outcome.reply == Err(UniqueViolation) <==>
            id in db.users && forall i :: !NameInUse(db, data.name, i))
      && (outcome.reply.Ok? <==> id !in db.users && forall i :: !NameInUse(db, data.name, i))
      && (outcome.reply.Ok? ==>
            && outcome.reply == Ok(Token(id))
            && next == db.(users := next.users) && OnlyRow(db.users, next.users, id)
            && next.users[id].name == data.name
            && next.users[id].passwordSalt == salt
            && next.users[id].passwordHash == sha(data.password + salt))
  {
    NamesInUse(db, data.name);
  }

  lemma NamesInUse(db: Db, name: string)
    ensures NameTaken(db, name) <==> exists i :: NameInUse(db, name, i)
  {
    if NameTaken(db, name) {
      var i :| i in db.users && db.users[i].name == name;
      assert NameInUse(db, name, i);
    }
  }

  lemma ModifiedUser(sha: Sha512, db: Db, user: Uuid, data: Credentials, salt: string)
    ensures var outcome := ModifyUser(sha, db, user, data, salt);
      var next := outcome.db;
      && (outcome.reply.Err? ==> next == db)
      && (outcome.reply == Err(UserNotFound) <==> user !in db.users)
      && (outcome.reply == Err(UniqueViolation) <==>
            user in db.users && exists i :: i != user && NameInUse(db, data.name, i))
      && (outcome.reply.Ok? <==> user in db.users && forall i :: i != user ==> !NameInUse(db, data.name, i))
      && (outcome.reply.Ok? ==>
            && outcome.reply == Ok(Done)
            && next == db.(users := next.users) && OnlyRow(db.users, next.users, user)
            && next.users[user].name == data.name
            && next.users[user].passwordSalt == salt
            && next.users[user].passwordHash == sha(data.password + salt))
  {
    OtherNamesInUse(db, user, data.name);
  }

  lemma OtherNamesInUse(db: Db, user: Uuid, name: string)
    ensures NameTakenByAnother(db, user, name) <==> exists i :: i != user && NameInUse(db, name, i)
  {
    if NameTakenByAnother(db, user, name) {
      var i :| i in db.users && i != user && db.users[i].name == name;
      assert NameInUse(db, name, i);
    }
  }

  lemma DeletedUser(db: Db, user: Uuid)
    requires Coherent(db)
    ensures DeleteUser(db, user) ==
      if user in db.users then Outcome(WithoutUser(db, user), Ok(Done)) else Outcome(db, Err(UserNotFound))
  {
    DeletingAUser(db, user);
  }

  // ----- Templates -----

  predicate TemplateColumns(row: TemplateRow, data: TemplateData, user: Uuid) {
    row.name == data.name && row.messageText == data.messageText && row.master == user
  }

  lemma CreatedTemplate(db: Db, user: Uuid, id: Uuid, data: TemplateData)
    ensures var outcome := CreateTemplate(db, user, id, data);
      var next := outcome.db;
      && (outcome.reply.Err? ==> next == db)
      && (outcome.reply.Ok? <==> id !in db.templateDrafts && user in db.users)
      && (outcome.reply.Ok? ==>
            && next == db.(templateDrafts := next.templateDrafts)
            && OnlyRow(db.templateDrafts, next.templateDrafts, id)
            && TemplateColumns(next.templateDrafts[id], data, user)
            && outcome.reply == Ok(OneTemplate(id, next.templateDrafts[id])))
  {
  }

  lemma ModifiedTemplate(db: Db, user: Uuid, template: Uuid, data: TemplateData)
    ensures var outcome := ModifyTemplate(db, user, template, data);
      var next := outcome.db;
      && (outcome.reply.Err? ==> next == db && outcome.reply == Err(TemplateNotFound))
      && (outcome.reply.Ok? <==> template in db.templates && db.templates[template].master == user)
      && (outcome.reply.Ok? ==>
            && next == db.(templates := next.templates) && OnlyRow(db.templates, next.templates, template)
            && TemplateColumns(next.templates[template], data, user)
            && outcome.reply == Ok(OneTemplate(template, next.templates[template])))
  {
  }

  lemma DeletedTemplate(db: Db, user: Uuid, template: Uuid)
    ensures DeleteTemplate(db, user, template) ==
      if template in db.templates && db.templates[template].master == user
      then Outcome(WithoutTemplate(db, template), Ok(Done)) else Outcome(db, Err(TemplateNotFound))
  {
    DeletingATemplate(db, template);
  }

  // ----- Recipients -----

  predicate RecipientColumns(row: RecipientRow, data: RecipientData, user: Uuid) {
    && row.name == data.name
    && row.email == data.email
    && row.phoneNumber == data.phoneNumber
    && row.telegramId == data.telegramId
    && row.master == user
  }

  lemma CreatedRecipient(db: Db, user: Uuid, id: Uuid, data: RecipientData)
    ensures var outcome := CreateRecipient(db, user, id, data);
      var next := outcome.db;
      && (outcome.reply.Err? ==> next == db)
      && (outcome.reply.Ok? <==> id !in db.recipientDrafts && user in db.users)
      && (outcome.reply.Ok? ==>
            && next == db.(recipientDrafts := next.recipientDrafts)
            && OnlyRow(db.recipientDrafts, next.recipientDrafts, id)
            && RecipientColumns(next.recipientDrafts[id], data, user)
            && outcome.reply == Ok(OneRecipient(id, next.recipientDrafts[id])))
  {
  }

  lemma ModifiedRecipient(db: Db, user: Uuid, recipient: Uuid, data: RecipientData)
    ensures var outcome := ModifyRecipient(db, user, recipient, data);
      var next := outcome.db;
      && (outcome.reply.Err? ==> next == db && outcome.reply == Err(RecipientNotFound))
      && (outcome.reply.Ok? <==> recipient in db.recipients && db.recipients[recipient].master == user)
      && (outcome.reply.Ok? ==>
            && next == db.(recipients := next.recipients) && OnlyRow(db.recipients, next.recipients, recipient)
            && RecipientColumns(next.recipients[recipient], data, user)
            && outcome.reply == Ok(OneRecipient(recipient, next.recipients[recipient])))
  {
  }

  lemma DeletedRecipient(db: Db, user: Uuid, recipient: Uuid)
    ensures DeleteRecipient(db, user, recipient) ==
      if recipient in db.recipients && db.recipients[recipient].master == user
      then Outcome(WithoutRecipient(db, recipient), Ok(Done)) else Outcome(db, Err(RecipientNotFound))
  {
    DeletingARecipient(db, recipient);
  }

  // ----- Groups -----

  predicate GroupColumns(row: GroupRow, data: GroupData, user: Uuid) {
    && row.name == data.name
    && row.active == data.active
    && row.master == user
    && match data.template
       case TemplateId(t) => row.template == Some(t)
       case _ => row.template == None
  }

  /** The template that is asked for, if any, is stored. */
  predicate TemplateUsable(db: Db, arg: TemplateArg) {
    match arg
    case NoTemplate => true
    case NotAUuid => false
    case TemplateId(t) => t in db.templates
  }

  lemma CreatedGroup(db: Db, user: Uuid, id: Uuid, data: GroupData)
    ensures var outcome := CreateGroup(db, user, id, data);
      var next := outcome.db;
      && (outcome.reply.Err? ==> next == db)
      && (outcome.reply.Ok? <==> id !in db.groupDrafts && user in db.users && TemplateUsable(db, data.template))
      && (outcome.reply == Err(UniqueViolation) <==> id in db.groupDrafts && !data.template.NotAUuid?)
      && (outcome.reply == Err(IncorrectTemplateId) <==>
            || data.template.NotAUuid?
            || (data.template.TemplateId? && id !in db.groupDrafts
                && (user !in db.users || data.template.id !in db.templates)))
      && (outcome.reply.Ok? ==>
            && next == db.(groupDrafts := next.groupDrafts) && OnlyRow(db.groupDrafts, next.groupDrafts, id)
            && GroupColumns(next.groupDrafts[id], data, user)
            && outcome.reply == Ok(OneGroup(id, next.groupDrafts[id])))
  {
  }

  lemma ModifiedGroup(db: Db, user: Uuid, group: Uuid, data: GroupData)
    ensures var outcome := ModifyGroup(db, user, group, data);
      var next := outcome.db;
      var owned := group in db.groups && db.groups[group].master == user;
      && (outcome.reply.Err? ==> next == db)
      && (outcome.reply == Err(GroupNotFound) <==> !data.template.NotAUuid? && !owned)
      && (outcome.reply == Err(IncorrectTemplateId) <==>
            data.template.NotAUuid? || (owned && !TemplateUsable(db, data.template)))
      && (outcome.reply.Ok? <==> owned && TemplateUsable(db, data.template))
      && (outcome.reply.Ok? ==>
            && next == db.(groups := next.groups) && OnlyRow(db.groups, next.groups, group)
            && GroupColumns(next.groups[group], data, user)
            && outcome.reply == Ok(OneGroup(group, next.groups[group])))
  {
  }

  lemma DeletedGroup(db: Db, user: Uuid, group: Uuid)
    ensures DeleteGroup(db, user, group) ==
      if group in db.groups && db.groups[group].master == user
      then Outcome(WithoutGroup(db, group), Ok(Done)) else Outcome(db, Err(GroupNotFound))
  {
    DeletingAGroup(db, group);
  }

  lemma AddedRecipient(db: Db, user: Uuid, group: Uuid, recipient: Uuid)
    ensures var outcome := AddRecipient(db, user, group, recipient);
      var ownsGroup := group in db.groups && db.groups[group].master == user;
      var ownsBoth := ownsGroup && recipient in db.recipients && db.recipients[recipient].master == user;
      && (outcome.reply == Err(GroupNotFound) <==> !ownsGroup)
      && (outcome.reply == Err(RecipientNotFound) <==> ownsGroup && !ownsBoth)
      && (outcome.reply == Err(RecipientAlreadyAdded) <==> ownsBoth && Membership(recipient, group) in db.memberships)
      && (outcome.reply == Ok(Done) <==> ownsBoth && Membership(recipient, group) !in db.memberships)
      && outcome.db == db.(memberships :=
           if outcome.reply == Ok(Done) then db.memberships + {Membership(recipient, group)} else db.memberships)
  {
  }

  lemma RemovedRecipient(db: Db, user: Uuid, group: Uuid, recipient: Uuid)
    ensures var outcome := RemoveRecipient(db, user, group, recipient);
      var ownsGroup := group in db.groups && db.groups[group].master == user;
      var ownsBoth := ownsGroup && recipient in db.recipients && db.recipients[recipient].master == user;
      && (outcome.reply == Err(GroupNotFound) <==> !ownsGroup)
      && (outcome.reply == Err(RecipientNotFound) <==> ownsGroup && !ownsBoth)
      && (outcome.reply == Err(RecipientNotAdded) <==> ownsBoth && Membership(recipient, group) !in db.memberships)
      && (outcome.reply == Ok(Done) <==> ownsBoth && Membership(recipient, group) in db.memberships)
      && outcome.db == db.(memberships := outcome.db.memberships)
      && (outcome.reply == Ok(Done) ==> Membership(recipient, group) !in outcome.db.memberships)
      && (forall m :: m in outcome.db.memberships <==>
            m in db.memberships && (outcome.reply == Ok(Done) ==> m != Membership(recipient, group)))
  {
  }

  // ----- Batches and notifications -----

  lemma CreatedBatch(db: Db, user: Uuid, id: Uuid)
    ensures var outcome := CreateBatch(db, user, id);
      var next := outcome.db;
      && (outcome.reply.Err? ==> next == db)
      && (outcome.reply.Ok? <==> id !in db.batches && user in db.users)
      && (outcome.reply.Ok? ==>
            && outcome.reply == Ok(NewBatch(id))
            && next == db.(batches := next.batches) && OnlyRow(db.batches, next.batches, id)
            && next.batches[id].master == user && !next.batches[id].sent)
  {
  }

  lemma CreatedNotification(
    db: Db, id: Uuid, kind: MessageType, created: int, batch: Uuid, recipient: Uuid, group: Uuid)
    ensures var outcome := CreateNotification(db, id, kind, created, batch, recipient, group);
      var next := outcome.db;
      && (outcome.reply.Err? ==> next == db)
      && (outcome.reply.Ok? <==>
            id !in db.notifications && batch in db.batches && recipient in db.recipients && group in db.groups)
      && (outcome.reply.Ok? ==>
            && outcome.reply == Ok(NewNotification(id))
            && next == db.(notifications := next.notifications)
            && OnlyRow(db.notifications, next.notifications, id)
            && next.notifications[id].kind == kind
            && next.notifications[id].created == created && next.notifications[id].completed == None
            && next.notifications[id].batch == Some(batch)
            && next.notifications[id].recipient == recipient && next.notifications[id].group == group)
  {
  }

  /** The notification is pending and belongs to a stored batch of the user. */
  predicate Cancellable(db: Db, user: Uuid, id: Uuid) {
    && id in db.notifications
    && db.notifications[id].completed == None
    && db.notifications[id].batch.Some?
    && db.notifications[id].batch.value in db.batches
    && db.batches[db.notifications[id].batch.value].master == user
  }

  lemma CancelledNotification(db: Db, user: Uuid, id: Uuid)
    ensures var outcome := CancelNotification(db, user, id);
      var next := outcome.db;
      && (outcome.reply == Ok(Done) <==> Cancellable(db, user, id))
      && (!Cancellable(db, user, id) ==> outcome == Outcome(db, Err(NotificationNotFound)))
      && (Cancellable(db, user, id) ==>
            && next == db.(notifications := next.notifications)
            && next.notifications.Keys == db.notifications.Keys - {id}
            && (forall i :: i in next.notifications ==> next.notifications[i] == db.notifications[i]))
  {
  }

  /** It is then listed for nobody, and nobody can cancel it again. */
  lemma CancelledIsGone(db: Db, user: Uuid, id: Uuid, v: Uuid)
    requires Cancellable(db, user, id)
    ensures var next := CancelNotification(db, user, id).db;
      && id !in ListAll(next, v) && id !in ListPending(next, v)
      && CancelNotification(next, v, id) == Outcome(next, Err(NotificationNotFound))
  {
    CancelledNotification(db, user, id);
  }
}
