/** Histories of committed transactions. One transaction is one atomic step; the state of the database
    is the fold of its history, and an earlier state is the fold of a prefix. */
module History {
  import opened Prelude
  import opened Tables
  import opened Requests

  // One datatype for each component that opens transactions.

  datatype UserTx =
    | CreateUserTx(newId: Uuid, credentials: Credentials, salt: string)
    | ModifyUserTx(user: Uuid, credentials: Credentials, salt: string)
    | DeleteUserTx(user: Uuid)

  datatype TemplateTx =
    | CreateTemplateTx(user: Uuid, newId: Uuid, data: TemplateData)
    | ConfirmTemplateTx(user: Uuid, draft: Uuid, newId: Uuid)
    | ModifyTemplateTx(user: Uuid, target: Uuid, data: TemplateData)
    | DeleteTemplateTx(user: Uuid, target: Uuid)

  datatype RecipientTx =
    | CreateRecipientTx(user: Uuid, newId: Uuid, data: RecipientData)
    | ConfirmRecipientTx(user: Uuid, draft: Uuid, newId: Uuid)
    | ModifyRecipientTx(user: Uuid, target: Uuid, data: RecipientData)
    | DeleteRecipientTx(user: Uuid, target: Uuid)

  datatype GroupTx =
    | CreateGroupTx(user: Uuid, newId: Uuid, data: GroupData)
    | ConfirmGroupTx(user: Uuid, draft: Uuid, newId: Uuid)
    | ModifyGroupTx(user: Uuid, target: Uuid, data: GroupData)
    | DeleteGroupTx(user: Uuid, target: Uuid)
    | AddRecipientTx(user: Uuid, target: Uuid, member: Uuid)
    | RemoveRecipientTx(user: Uuid, target: Uuid, member: Uuid)

  datatype NotificationTx =
    | CreateBatchTx(user: Uuid, newId: Uuid)
    | MarkSentTx(user: Uuid, batch: Uuid)
    | CreateNotificationTx(newId: Uuid, created: int, batch: Uuid, member: Uuid, target: Uuid)
    | CancelNotificationTx(user: Uuid, target: Uuid)

  datatype BotTx =
    | SubscribeTx(chat: ChatId, known: bool)
    | UnsubscribeTx(chat: ChatId)

  datatype Tx =
    | OnUser(user: UserTx)
    | OnTemplate(template: TemplateTx)
    | OnRecipient(recipient: RecipientTx)
    | OnGroup(group: GroupTx)
    | OnNotification(notification: NotificationTx)
    | OnContact(contact: BotTx)

  function ApplyUser(sha: Sha512, db: Db, tx: UserTx): Outcome {
    match tx
    case CreateUserTx(id, data, salt) => CreateUser(sha, db, id, data, salt)
    case ModifyUserTx(user, data, salt) => ModifyUser(sha, db, user, data, salt)
    case DeleteUserTx(user) => DeleteUser(db, user)
  }

  function ApplyTemplate(db: Db, tx: TemplateTx): Outcome {
    match tx
    case CreateTemplateTx(user, id, data) => CreateTemplate(db, user, id, data)
    case ConfirmTemplateTx(user, draft, id) => ConfirmTemplate(db, user, draft, id)
    case ModifyTemplateTx(user, target, data) => ModifyTemplate(db, user, target, data)
    case DeleteTemplateTx(user, target) => DeleteTemplate(db, user, target)
  }

  function ApplyRecipient(db: Db, tx: RecipientTx): Outcome {
    match tx
    case CreateRecipientTx(user, id, data) => CreateRecipient(db, user, id, data)
    case ConfirmRecipientTx(user, draft, id) => ConfirmRecipient(db, user, draft, id)
    case ModifyRecipientTx(user, target, data) => ModifyRecipient(db, user, target, data)
    case DeleteRecipientTx(user, target) => DeleteRecipient(db, user, target)
  }

  function ApplyGroup(db: Db, tx: GroupTx): Outcome {
    match tx
    case CreateGroupTx(user, id, data) => CreateGroup(db, user, id, data)
    case ConfirmGroupTx(user, draft, id) => ConfirmGroup(db, user, draft, id)
    case ModifyGroupTx(user, target, data) => ModifyGroup(db, user, target, data)
    case DeleteGroupTx(user, target) => DeleteGroup(db, user, target)
    case AddRecipientTx(user, target, member) => AddRecipient(db, user, target, member)
    case RemoveRecipientTx(user, target, member) => RemoveRecipient(db, user, target, member)
  }

  function ApplyNotification(db: Db, tx: NotificationTx): Outcome {
    match tx
    case CreateBatchTx(user, id) => CreateBatch(db, user, id)
    case MarkSentTx(user, batch) => Outcome(MarkSent(db, user, batch), Ok(Done))
    case CreateNotificationTx(id, created, batch, member, target) =>
      CreateNotification(db, id, Telegram, created, batch, member, target)
    case CancelNotificationTx(user, target) => CancelNotification(db, user, target)
  }

  function ApplyContact(db: Db, tx: BotTx): Outcome {
    match tx
    case SubscribeTx(chat, known) => Subscribe(db, chat, known)
    case UnsubscribeTx(chat) => Unsubscribe(db, chat)
  }

  function Apply(sha: Sha512, db: Db, tx: Tx): Outcome {
    match tx
    case OnUser(t) => ApplyUser(sha, db, t)
    case OnTemplate(t) => ApplyTemplate(db, t)
    case OnRecipient(t) => ApplyRecipient(db, t)
    case OnGroup(t) => ApplyGroup(db, t)
    case OnNotification(t) => ApplyNotification(db, t)
    case OnContact(t) => ApplyContact(db, t)
  }

  /** The database after a history that starts from the empty store. */
  function Exec(sha: Sha512, h: seq<Tx>): Db {
    if h == [] then EMPTY_DB else Apply(sha, Exec(sha, h[..|h| - 1]), h[|h| - 1]).db
  }

  /** What step i of a history answered. */
  function ReplyAt(sha: Sha512, h: seq<Tx>, i: nat): Result<Reply>
    requires i < |h|
  {
    Apply(sha, Exec(sha, h[..i]), h[i]).reply
  }

  lemma ExecStep(sha: Sha512, h: seq<Tx>, i: nat)
    requires i < |h|
    ensures Exec(sha, h[..i + 1]) == Apply(sha, Exec(sha, h[..i]), h[i]).db
  {
    assert h[..i + 1][..i] == h[..i];
  }

  // ----- Fresh identifiers -----

  /** The table a step inserts a uuid-keyed row into, and the owner it writes. */
  datatype Origin = Origin(table: Table, master: Uuid)

  datatype Drawn = Drawn(id: Uuid, origin: Origin)

  /** The id a transaction has drawn, if it draws one. */
  function Draw(tx: Tx): Option<Drawn> {
    match tx
    case OnUser(CreateUserTx(id, _, _)) => Some(Drawn(id, Origin(Users, id)))
    case OnTemplate(CreateTemplateTx(user, id, _)) => Some(Drawn(id, Origin(TemplateDrafts, user)))
    case OnTemplate(ConfirmTemplateTx(user, _, id)) => Some(Drawn(id, Origin(Templates, user)))
    case OnRecipient(CreateRecipientTx(user, id, _)) => Some(Drawn(id, Origin(RecipientDrafts, user)))
    case OnRecipient(ConfirmRecipientTx(user, _, id)) => Some(Drawn(id, Origin(Recipients, user)))
    case OnGroup(CreateGroupTx(user, id, _)) => Some(Drawn(id, Origin(GroupDrafts, user)))
    case OnGroup(ConfirmGroupTx(user, _, id)) => Some(Drawn(id, Origin(Groups, user)))
    case OnNotification(CreateBatchTx(user, id)) => Some(Drawn(id, Origin(Batches, user)))
    case OnNotification(CreateNotificationTx(id, _, _, _, _)) => Some(Drawn(id, Origin(Notifications, id)))
    case _ => None
  }

  /** Every id drawn so far, with the table and the owner it was drawn for. */
  function Registry(h: seq<Tx>): map<Uuid, Origin> {
    if h == [] then map[]
    else
      var before := Registry(h[..|h| - 1]);
      match Draw(h[|h| - 1])
      case Some(drawn) => before[drawn.id := drawn.origin]
      case None => before
  }

  /** A generated id was never drawn before (UUID version 7, section 5.7 of RFC 9562). */
  ghost predicate Fresh(h: seq<Tx>) {
    forall i :: 0 <= i < |h| && Draw(h[i]).Some? ==> Draw(h[i]).value.id !in Registry(h[..i])
  }

  lemma RegistryStep(h: seq<Tx>, n: nat)
    requires Fresh(h) && n < |h|
    ensures forall i :: i in Registry(h[..n]) ==>
      i in Registry(h[..n + 1]) && Registry(h[..n + 1])[i] == Registry(h[..n])[i]
  {
    assert h[..n + 1][..n] == h[..n];
  }

  /** In a fresh history an id keeps its origin for ever. */
  lemma {:induction false} RegistryGrows(h: seq<Tx>, k: nat, n: nat, i: Uuid)
    requires Fresh(h) && k <= n <= |h| && i in Registry(h[..k])
    ensures i in Registry(h[..n]) && Registry(h[..n])[i] == Registry(h[..k])[i]
    decreases n
  {
    if k < n {
      RegistryGrows(h, k, n - 1, i);
      RegistryStep(h, n - 1);
    }
  }
}
