/** The eleven tables of the schema, as one value, and the constraints declared on them. */
module Tables {
  import opened Prelude

  type Uuid = nat
  type ChatId = int

  datatype UserRow = UserRow(name: string, passwordHash: string, passwordSalt: string)

  datatype TemplateRow = TemplateRow(name: string, messageText: Option<string>, master: Uuid)

  datatype RecipientRow = RecipientRow(
    name: string,
    email: Option<string>,
    phoneNumber: Option<string>,
    telegramId: Option<ChatId>,
    master: Uuid)

  datatype GroupRow = GroupRow(name: string, active: bool, master: Uuid, template: Option<Uuid>)

  datatype Membership = Membership(recipient: Uuid, group: Uuid)

  datatype BatchRow = BatchRow(sent: bool, master: Uuid)

  datatype MessageType = Telegram | Sms | Mail

  datatype NotificationRow = NotificationRow(
    kind: MessageType,
    created: int,
    completed: Option<int>,
    batch: Option<Uuid>,
    recipient: Uuid,
    group: Uuid)

  /** A committed state of the database. A table is a map from its primary key to the other columns;
      the membership table has no other columns. */
  datatype Db = Db(
    users: map<Uuid, UserRow>,
    templates: map<Uuid, TemplateRow>,
    templateDrafts: map<Uuid, TemplateRow>,
    recipients: map<Uuid, RecipientRow>,
    recipientDrafts: map<Uuid, RecipientRow>,
    groups: map<Uuid, GroupRow>,
    groupDrafts: map<Uuid, GroupRow>,
    memberships: set<Membership>,
    batches: map<Uuid, BatchRow>,
    notifications: map<Uuid, NotificationRow>,
    contacts: map<ChatId, bool>)

  const EMPTY_DB := Db(map[], map[], map[], map[], map[], map[], map[], {}, map[], map[], map[])

  /** The tables whose primary key is a uuid. */
  datatype Table =
    | Users
    | Templates
    | TemplateDrafts
    | Recipients
    | RecipientDrafts
    | Groups
    | GroupDrafts
    | Batches
    | Notifications

  function Ids(db: Db, t: Table): set<Uuid> {
    match t
    case Users => db.users.Keys
    case Templates => db.templates.Keys
    case TemplateDrafts => db.templateDrafts.Keys
    case Recipients => db.recipients.Keys
    case RecipientDrafts => db.recipientDrafts.Keys
    case Groups => db.groups.Keys
    case GroupDrafts => db.groupDrafts.Keys
    case Batches => db.batches.Keys
    case Notifications => db.notifications.Keys
  }

  /** The tenant a row belongs to. A notification has no master_id column of its own. */
  function MasterOf(db: Db, t: Table, i: Uuid): Uuid
    requires i in Ids(db, t)
  {
    match t
    case Users => i
    case Templates => db.templates[i].master
    case TemplateDrafts => db.templateDrafts[i].master
    case Recipients => db.recipients[i].master
    case RecipientDrafts => db.recipientDrafts[i].master
    case Groups => db.groups[i].master
    case GroupDrafts => db.groupDrafts[i].master
    case Batches => db.batches[i].master
    case Notifications => i
  }

  /** What is left of a template reference: the template, as long as it is stored. */
  function Remaining(templates: map<Uuid, TemplateRow>, key: Option<Uuid>): Option<Uuid> {
    if key.Some? && key.value in templates then key else None
  }

  ghost predicate TemplateKeys(templates: map<Uuid, TemplateRow>, users: map<Uuid, UserRow>) {
    forall i :: i in templates ==> templates[i].master in users
  }

  ghost predicate RecipientKeys(recipients: map<Uuid, RecipientRow>, users: map<Uuid, UserRow>) {
    forall i :: i in recipients ==> recipients[i].master in users
  }

  predicate GroupReferences(row: GroupRow, users: map<Uuid, UserRow>, templates: map<Uuid, TemplateRow>) {
    && row.master in users
    && (row.template.Some? ==> row.template.value in templates)
  }

  ghost predicate GroupKeys(
    groups: map<Uuid, GroupRow>, users: map<Uuid, UserRow>, templates: map<Uuid, TemplateRow>)
  {
    forall i :: i in groups ==> GroupReferences(groups[i], users, templates)
  }

  predicate MembershipReferences(m: Membership, recipients: map<Uuid, RecipientRow>, groups: map<Uuid, GroupRow>) {
    m.recipient in recipients && m.group in groups
  }

  ghost predicate MembershipKeys(
    memberships: set<Membership>, recipients: map<Uuid, RecipientRow>, groups: map<Uuid, GroupRow>)
  {
    forall m :: m in memberships ==> MembershipReferences(m, recipients, groups)
  }

  ghost predicate BatchKeys(batches: map<Uuid, BatchRow>, users: map<Uuid, UserRow>) {
    forall i :: i in batches ==> batches[i].master in users
  }

  predicate NotificationReferences(
    row: NotificationRow,
    recipients: map<Uuid, RecipientRow>,
    groups: map<Uuid, GroupRow>,
    batches: map<Uuid, BatchRow>)
  {
    && row.recipient in recipients
    && row.group in groups
    && (row.batch.Some? ==> row.batch.value in batches)
  }

  ghost predicate NotificationKeys(
    notifications: map<Uuid, NotificationRow>,
    recipients: map<Uuid, RecipientRow>,
    groups: map<Uuid, GroupRow>,
    batches: map<Uuid, BatchRow>)
  {
    forall i :: i in notifications ==> NotificationReferences(notifications[i], recipients, groups, batches)
  }

  /** Every foreign key value refers to a stored row. */
  ghost predicate ForeignKeys(db: Db) {
    && TemplateKeys(db.templates, db.users)
    && TemplateKeys(db.templateDrafts, db.users)
    && RecipientKeys(db.recipients, db.users)
    && RecipientKeys(db.recipientDrafts, db.users)
    && GroupKeys(db.groups, db.users, db.templates)
    && GroupKeys(db.groupDrafts, db.users, db.templates)
    && MembershipKeys(db.memberships, db.recipients, db.groups)
    && BatchKeys(db.batches, db.users)
    && NotificationKeys(db.notifications, db.recipients, db.groups, db.batches)
  }

  /** The unique constraint on user names. */
  ghost predicate UniqueNames(users: map<Uuid, UserRow>) {
    forall i, j :: i in users && j in users && users[i].name == users[j].name ==> i == j
  }

  /** What the schema itself enforces. */
  ghost predicate Integrity(db: Db) {
    ForeignKeys(db) && UniqueNames(db.users)
  }

  /** No membership crosses tenants. */
  ghost predicate CoherentMemberships(
    memberships: set<Membership>, recipients: map<Uuid, RecipientRow>, groups: map<Uuid, GroupRow>)
  {
    forall m :: m in memberships ==>
      MembershipReferences(m, recipients, groups) && recipients[m.recipient].master == groups[m.group].master
  }

  /** The batch, the recipient and the group of a notification exist and have one master, and the batch
      is marked sent. */
  ghost predicate Grounded(
    row: NotificationRow,
    recipients: map<Uuid, RecipientRow>,
    groups: map<Uuid, GroupRow>,
    batches: map<Uuid, BatchRow>)
  {
    && row.batch.Some?
    && NotificationReferences(row, recipients, groups, batches)
    && batches[row.batch.value].master == recipients[row.recipient].master == groups[row.group].master
    && batches[row.batch.value].sent
    && row.completed.None?
  }

  ghost predicate CoherentNotifications(
    notifications: map<Uuid, NotificationRow>,
    recipients: map<Uuid, RecipientRow>,
    groups: map<Uuid, GroupRow>,
    batches: map<Uuid, BatchRow>)
  {
    forall i :: i in notifications ==> Grounded(notifications[i], recipients, groups, batches)
  }

  /** No membership and no notification crosses tenants, and no notification has lost its batch. */
  ghost predicate Coherent(db: Db) {
    && CoherentMemberships(db.memberships, db.recipients, db.groups)
    && CoherentNotifications(db.notifications, db.recipients, db.groups, db.batches)
  }
}
