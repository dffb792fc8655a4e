/** What each manager operation does to a committed database, and what it answers. */
module Requests {
  import opened Prelude
  import opened Tables
  import opened Cascade

  type Sha512 = string -> string

  /** Hash of a salted password, as computed by HashPwd. */
  function HashPwd(sha: Sha512, password: string, salt: string): string {
    sha(password + salt)
  }

  // ----- Payloads and answers -----

  datatype Credentials = Credentials(name: string, password: string)

  datatype TemplateData = TemplateData(name: string, messageText: Option<string>)

  datatype RecipientData = RecipientData(
    name: string,
    email: Option<string>,
    phoneNumber: Option<string>,
    telegramId: Option<ChatId>)

  /** The optional template id of a group payload, after its conversion from a string. */
  datatype TemplateArg = NoTemplate | NotAUuid | TemplateId(id: Uuid)

  datatype GroupData = GroupData(name: string, template: TemplateArg, active: bool)

  datatype Reply =
    | Done
    | Token(user: Uuid)
    | OneTemplate(templateId: Uuid, template: TemplateRow)
    | OneRecipient(recipientId: Uuid, recipient: RecipientRow)
    | OneGroup(groupId: Uuid, group: GroupRow)
    | NewBatch(batchId: Uuid)
    | NewNotification(notificationId: Uuid)
    | NotChanged          // the bot answers that the contact already is in the requested state

  datatype Outcome = Outcome(db: Db, reply: Result<Reply>)

  // ----- Statements, with the checks of the schema -----

  /** Insertion of an account whose name is not taken. */
  function InsertUser(db: Db, id: Uuid, row: UserRow): Result<Db> {
    if id in db.users then Err(UniqueViolation) else Ok(db.(users := db.users[id := row]))
  }

  function UpdateUser(db: Db, id: Uuid, row: UserRow): Result<Db> {
    if NameTakenByAnother(db, id, row.name) then Err(UniqueViolation) else Ok(db.(users := db.users[id := row]))
  }

  function InsertTemplate(db: Db, id: Uuid, row: TemplateRow): Result<Db> {
    if id in db.templates then Err(UniqueViolation)
    else if row.master !in db.users then Err(ForeignKeyViolation)
    else Ok(db.(templates := db.templates[id := row]))
  }

  function InsertTemplateDraft(db: Db, id: Uuid, row: TemplateRow): Result<Db> {
    if id in db.templateDrafts then Err(UniqueViolation)
    else if row.master !in db.users then Err(ForeignKeyViolation)
    else Ok(db.(templateDrafts := db.templateDrafts[id := row]))
  }

  function InsertRecipient(db: Db, id: Uuid, row: RecipientRow): Result<Db> {
    if id in db.recipients then Err(UniqueViolation)
    else if row.master !in db.users then Err(ForeignKeyViolation)
    else Ok(db.(recipients := db.recipients[id := row]))
  }

  function InsertRecipientDraft(db: Db, id: Uuid, row: RecipientRow): Result<Db> {
    if id in db.recipientDrafts then Err(UniqueViolation)
    else if row.master !in db.users then Err(ForeignKeyViolation)
    else Ok(db.(recipientDrafts := db.recipientDrafts[id := row]))
  }

  function InsertGroup(db: Db, id: Uuid, row: GroupRow): Result<Db> {
    if id in db.groups then Err(UniqueViolation)
    else if !GroupReferences(row, db.users, db.templates) then Err(ForeignKeyViolation)
    else Ok(db.(groups := db.groups[id := row]))
  }

  function UpdateGroup(db: Db, id: Uuid, row: GroupRow): Result<Db> {
    if row.template.Some? && row.template.value !in db.templates then Err(ForeignKeyViolation)
    else Ok(db.(groups := db.groups[id := row]))
  }

  function InsertGroupDraft(db: Db, id: Uuid, row: GroupRow): Result<Db> {
    if id in db.groupDrafts then Err(UniqueViolation)
    else if !GroupReferences(row, db.users, db.templates) then Err(ForeignKeyViolation)
    else Ok(db.(groupDrafts := db.groupDrafts[id := row]))
  }

  function InsertMembership(db: Db, m: Membership): Result<Db> {
    if m in db.memberships then Err(UniqueViolation)
    else if !MembershipReferences(m, db.recipients, db.groups) then Err(ForeignKeyViolation)
    else Ok(db.(memberships := db.memberships + {m}))
  }

  function InsertBatch(db: Db, id: Uuid, row: BatchRow): Result<Db> {
    if id in db.batches then Err(UniqueViolation)
    else if row.master !in db.users then Err(ForeignKeyViolation)
    else Ok(db.(batches := db.batches[id := row]))
  }

  function InsertNotification(db: Db, id: Uuid, row: NotificationRow): Result<Db> {
    if id in db.notifications then Err(UniqueViolation)
    else if !NotificationReferences(row, db.recipients, db.groups, db.batches) then Err(ForeignKeyViolation)
    else Ok(db.(notifications := db.notifications[id := row]))
  }

  function InsertContact(db: Db, chat: ChatId): Result<Db> {
    if chat in db.contacts then Err(UniqueViolation)
    else Ok(db.(contacts := db.contacts[chat := true]))
  }

  /** The outcome of a transaction that ends with this statement. */
  function Ending(db: Db, statement: Result<Db>, reply: Reply): Outcome {
    match statement
    case Ok(next) => Outcome(next, Ok(reply))
    case Err(e) => Outcome(db, Err(e))
  }

  // ----- Users -----

  predicate NameTaken(db: Db, name: string) {
    exists i :: i in db.users && db.users[i].name == name
  }

  predicate NameTakenByAnother(db: Db, user: Uuid, name: string) {
    exists i :: i in db.users && i != user && db.users[i].name == name
  }

  function CreateUser(sha: Sha512, db: Db, id: Uuid, data: Credentials, salt: string): Outcome {
    if NameTaken(db, data.name) then Outcome(db, Err(UserAlreadyExists))
    else Ending(db, InsertUser(db, id, UserRow(data.name, HashPwd(sha, data.password, salt), salt)), Token(id))
  }

  function ModifyUser(sha: Sha512, db: Db, user: Uuid, data: Credentials, salt: string): Outcome {
    if user !in db.users then Outcome(db, Err(UserNotFound))
    else Ending(db, UpdateUser(db, user, UserRow(data.name, HashPwd(sha, data.password, salt), salt)), Done)
  }

  function DeleteUser(db: Db, user: Uuid): Outcome {
    if user !in db.users then Outcome(db, Err(UserNotFound))
    else Outcome(Erase(db, Doomed(db, {Row(Users, user)})), Ok(Done))
  }

  /** The name is unique, so the query for it gives at most one row. */
  function Login(sha: Sha512, db: Db, name: string, password: string): Result<Reply>
    requires UniqueNames(db.users)
  {
    if !NameTaken(db, name) then Err(UserNotFound)
    else
      var user :| user in db.users && db.users[user].name == name;
      var row := db.users[user];
      if row.passwordHash == HashPwd(sha, password, row.passwordSalt) then Ok(Token(user)) else Err(IncorrectPwd)
  }

  // ----- Templates -----

  function CreateTemplate(db: Db, user: Uuid, id: Uuid, data: TemplateData): Outcome {
    var row := TemplateRow(data.name, data.messageText, user);
    Ending(db, InsertTemplateDraft(db, id, row), OneTemplate(id, row))
  }

  predicate OwnsTemplateDraft(db: Db, user: Uuid, draft: Uuid) {
    draft in db.templateDrafts && db.templateDrafts[draft].master == user
  }

  /** DELETE FROM notification_template_draft of one owner and one id. */
  function DropTemplateDraft(db: Db, user: Uuid, draft: Uuid): Db {
    if OwnsTemplateDraft(db, user, draft) then db.(templateDrafts := db.templateDrafts - {draft}) else db
  }

  function ConfirmTemplate(db: Db, user: Uuid, draft: Uuid, id: Uuid): Outcome {
    if !OwnsTemplateDraft(db, user, draft) then Outcome(db, Err(DraftNotFound))
    else
      var row := db.templateDrafts[draft];
      match InsertTemplate(db, id, row)
      case Err(e) => Outcome(db, Err(e))
      case Ok(next) => Outcome(DropTemplateDraft(next, user, draft), Ok(OneTemplate(id, row)))
  }

  predicate OwnsTemplate(db: Db, user: Uuid, template: Uuid) {
    template in db.templates && db.templates[template].master == user
  }

  function ModifyTemplate(db: Db, user: Uuid, template: Uuid, data: TemplateData): Outcome {
    if !OwnsTemplate(db, user, template) then Outcome(db, Err(TemplateNotFound))
    else
      var row := TemplateRow(data.name, data.messageText, user);
      Outcome(db.(templates := db.templates[template := row]), Ok(OneTemplate(template, row)))
  }

  function DeleteTemplate(db: Db, user: Uuid, template: Uuid): Outcome {
    if !OwnsTemplate(db, user, template) then Outcome(db, Err(TemplateNotFound))
    else Outcome(Erase(db, Doomed(db, {Row(Templates, template)})), Ok(Done))
  }

  // ----- Recipients -----

  function RecipientRowOf(data: RecipientData, master: Uuid): RecipientRow {
    RecipientRow(data.name, data.email, data.phoneNumber, data.telegramId, master)
  }

  function CreateRecipient(db: Db, user: Uuid, id: Uuid, data: RecipientData): Outcome {
    var row := RecipientRowOf(data, user);
    Ending(db, InsertRecipientDraft(db, id, row), OneRecipient(id, row))
  }

  predicate OwnsRecipientDraft(db: Db, user: Uuid, draft: Uuid) {
    draft in db.recipientDrafts && db.recipientDrafts[draft].master == user
  }

  function ConfirmRecipient(db: Db, user: Uuid, draft: Uuid, id: Uuid): Outcome {
    if !OwnsRecipientDraft(db, user, draft) then Outcome(db, Err(DraftNotFound))
    else
      var row := db.recipientDrafts[draft];
      match InsertRecipient(db, id, row)
      case Err(e) => Outcome(db, Err(e))
      case Ok(next) =>
        Outcome(next.(recipientDrafts := next.recipientDrafts - {draft}), Ok(OneRecipient(id, row)))
  }

  predicate OwnsRecipient(db: Db, user: Uuid, recipient: Uuid) {
    recipient in db.recipients && db.recipients[recipient].master == user
  }

  function ModifyRecipient(db: Db, user: Uuid, recipient: Uuid, data: RecipientData): Outcome {
    if !OwnsRecipient(db, user, recipient) then Outcome(db, Err(RecipientNotFound))
    else
      var row := RecipientRowOf(data, user);
      Outcome(db.(recipients := db.recipients[recipient := row]), Ok(OneRecipient(recipient, row)))
  }

  function DeleteRecipient(db: Db, user: Uuid, recipient: Uuid): Outcome {
    if !OwnsRecipient(db, user, recipient) then Outcome(db, Err(RecipientNotFound))
    else Outcome(Erase(db, Doomed(db, {Row(Recipients, recipient)})), Ok(Done))
  }

  // ----- Groups -----

  function TemplateKey(arg: TemplateArg): Option<Uuid> {
    if arg.TemplateId? then Some(arg.id) else None
  }

  /** The handler of a foreign key violation names the template id, which an absent id cannot do. */
  function BlameTemplate(arg: TemplateArg): Error {
    if arg.NoTemplate? then BadOptionalAccess else IncorrectTemplateId
  }

  function CreateGroup(db: Db, user: Uuid, id: Uuid, data: GroupData): Outcome {
    var row := GroupRow(data.name, data.active, user, TemplateKey(data.template));
    if data.template.NotAUuid? then Outcome(db, Err(IncorrectTemplateId))
    else if InsertGroupDraft(db, id, row) == Err(ForeignKeyViolation) then
      Outcome(db, Err(BlameTemplate(data.template)))
    else Ending(db, InsertGroupDraft(db, id, row), OneGroup(id, row))
  }

  predicate OwnsGroupDraft(db: Db, user: Uuid, draft: Uuid) {
    draft in db.groupDrafts && db.groupDrafts[draft].master == user
  }

  /** The draft that is deleted is looked up among the template drafts, so the group draft stays. */
  function ConfirmGroup(db: Db, user: Uuid, draft: Uuid, id: Uuid): Outcome {
    if !OwnsGroupDraft(db, user, draft) then Outcome(db, Err(DraftNotFound))
    else
      var row := db.groupDrafts[draft];
      match InsertGroup(db, id, row)
      case Err(e) => Outcome(db, Err(e))
      case Ok(next) => Outcome(DropTemplateDraft(next, user, draft), Ok(OneGroup(id, row)))
  }

  predicate OwnsGroup(db: Db, user: Uuid, group: Uuid) {
    group in db.groups && db.groups[group].master == user
  }

  function ModifyGroup(db: Db, user: Uuid, group: Uuid, data: GroupData): Outcome {
    var row := GroupRow(data.name, data.active, user, TemplateKey(data.template));
    if data.template.NotAUuid? then Outcome(db, Err(IncorrectTemplateId))
    else if !OwnsGroup(db, user, group) then Outcome(db, Err(GroupNotFound))
    else
      match UpdateGroup(db, group, row)
      case Err(_) => Outcome(db, Err(IncorrectTemplateId))
      case Ok(next) => Outcome(next, Ok(OneGroup(group, row)))
  }

  function AddRecipient(db: Db, user: Uuid, group: Uuid, recipient: Uuid): Outcome {
    if !OwnsGroup(db, user, group) then Outcome(db, Err(GroupNotFound))
    else if !OwnsRecipient(db, user, recipient) then Outcome(db, Err(RecipientNotFound))
    else if Membership(recipient, group) in db.memberships then Outcome(db, Err(RecipientAlreadyAdded))
    else Ending(db, InsertMembership(db, Membership(recipient, group)), Done)
  }

  function RemoveRecipient(db: Db, user: Uuid, group: Uuid, recipient: Uuid): Outcome {
    if !OwnsGroup(db, user, group) then Outcome(db, Err(GroupNotFound))
    else if !OwnsRecipient(db, user, recipient) then Outcome(db, Err(RecipientNotFound))
    else if Membership(recipient, group) !in db.memberships then Outcome(db, Err(RecipientNotAdded))
    else Outcome(db.(memberships := db.memberships - {Membership(recipient, group)}), Ok(Done))
  }

  function DeleteGroup(db: Db, user: Uuid, group: Uuid): Outcome {
    if !OwnsGroup(db, user, group) then Outcome(db, Err(GroupNotFound))
    else Outcome(Erase(db, Doomed(db, {Row(Groups, group)})), Ok(Done))
  }

  // ----- Notifications -----

  function CreateBatch(db: Db, user: Uuid, id: Uuid): Outcome {
    Ending(db, InsertBatch(db, id, BatchRow(false, user)), NewBatch(id))
  }

  predicate OwnsBatch(db: Db, user: Uuid, batch: Uuid) {
    batch in db.batches && db.batches[batch].master == user
  }

  /** The answer of the existence query of SendBatch. */
  predicate BatchPending(db: Db, user: Uuid, batch: Uuid) {
    OwnsBatch(db, user, batch) && !db.batches[batch].sent
  }

  /** The update of SendBatch. It does not look at the old value of sent. */
  function MarkSent(db: Db, user: Uuid, batch: Uuid): Db {
    if OwnsBatch(db, user, batch) then db.(batches := db.batches[batch := BatchRow(true, user)]) else db
  }

  function TelegramNotification(created: int, batch: Uuid, recipient: Uuid, group: Uuid): NotificationRow {
    NotificationRow(Telegram, created, None, Some(batch), recipient, group)
  }

  function CreateNotification(
    db: Db, id: Uuid, kind: MessageType, created: int, batch: Uuid, recipient: Uuid, group: Uuid): Outcome
  {
    var row := NotificationRow(kind, created, None, Some(batch), recipient, group);
    Ending(db, InsertNotification(db, id, row), NewNotification(id))
  }

  /** The notifications that the inner join with the batches gives to a user. */
  function ListAll(db: Db, user: Uuid): set<Uuid> {
    set i | i in db.notifications && db.notifications[i].batch.Some?
      && OwnsBatch(db, user, db.notifications[i].batch.value)
  }

  function ListPending(db: Db, user: Uuid): set<Uuid> {
    set i | i in ListAll(db, user) && db.notifications[i].completed.None?
  }

  function CancelNotification(db: Db, user: Uuid, id: Uuid): Outcome {
    if id !in ListPending(db, user) then Outcome(db, Err(NotificationNotFound))
    else Outcome(db.(notifications := db.notifications - {id}), Ok(Done))
  }

  // ----- Bot commands -----

  /** The chat has asked for notifications. */
  predicate ChatActive(db: Db, chat: ChatId) {
    chat in db.contacts && db.contacts[chat]
  }

  /** /send_notifications, after an existence query that answered known. */
  function Subscribe(db: Db, chat: ChatId, known: bool): Outcome {
    if !known then Ending(db, InsertContact(db, chat), Done)
    else if chat in db.contacts && !db.contacts[chat] then
      Outcome(db.(contacts := db.contacts[chat := true]), Ok(Done))
    else Outcome(db, Ok(NotChanged))
  }

  /** /stop_notifications */
  function Unsubscribe(db: Db, chat: ChatId): Outcome {
    if chat in db.contacts && db.contacts[chat] then
      Outcome(db.(contacts := db.contacts[chat := false]), Ok(Done))
    else Outcome(db, Ok(NotChanged))
  }
}
