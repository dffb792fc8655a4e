/** What is deleted stays away, with everything that refers to it, in every later version. */
module Removals {
  import opened Prelude
  import opened Tables
  import opened Deletions
  import opened Requests
  import opened RequestEffects
  import opened History
  import opened SchemaIntegrity
  import opened Identity

  // ----- Without a row there is no reference to it -----

  lemma NoGroupNoLinks(db: Db, group: Uuid)
    requires ForeignKeys(db) && group !in db.groups
    ensures forall m :: m in db.memberships ==> m.group != group
    ensures forall n :: n in db.notifications ==> db.notifications[n].group != group
  {
    forall m | m in db.memberships
      ensures m.group != group
    {
      assert MembershipReferences(m, db.recipients, db.groups);
    }
    forall n | n in db.notifications
      ensures db.notifications[n].group != group
    {
      assert NotificationReferences(db.notifications[n], db.recipients, db.groups, db.batches);
    }
  }

  lemma NoRecipientNoLinks(db: Db, recipient: Uuid)
    requires ForeignKeys(db) && recipient !in db.recipients
    ensures forall m :: m in db.memberships ==> m.recipient != recipient
    ensures forall n :: n in db.notifications ==> db.notifications[n].recipient != recipient
  {
    forall m | m in db.memberships
      ensures m.recipient != recipient
    {
      assert MembershipReferences(m, db.recipients, db.groups);
    }
    forall n | n in db.notifications
      ensures db.notifications[n].recipient != recipient
    {
      assert NotificationReferences(db.notifications[n], db.recipients, db.groups, db.batches);
    }
  }

  lemma NoTemplateNoUse(db: Db, template: Uuid)
    requires ForeignKeys(db) && template !in db.templates
    ensures forall g :: g in db.groups ==> db.groups[g].template != Some(template)
    ensures forall g :: g in db.groupDrafts ==> db.groupDrafts[g].template != Some(template)
  {
    forall g | g in db.groups
      ensures db.groups[g].template != Some(template)
    {
      assert GroupReferences(db.groups[g], db.users, db.templates);
    }
    forall g | g in db.groupDrafts
      ensures db.groupDrafts[g].template != Some(template)
    {
      assert GroupReferences(db.groupDrafts[g], db.users, db.templates);
    }
  }

  lemma NoUserNoRows(db: Db, user: Uuid)
    requires ForeignKeys(db) && user !in db.users
    ensures forall t, i :: t != Notifications && i in Ids(db, t) ==> MasterOf(db, t, i) != user
  {
    forall t, i | t != Notifications && i in Ids(db, t)
      ensures MasterOf(db, t, i) != user
    {
      match t
      case Groups => assert GroupReferences(db.groups[i], db.users, db.templates);
      case GroupDrafts => assert GroupReferences(db.groupDrafts[i], db.users, db.templates);
      case _ =>
    }
  }

  // ----- Over histories -----

  lemma GroupIsDeleted(sha: Sha512, h: seq<Tx>, i: nat, user: Uuid, group: Uuid)
    requires i < |h| && h[i] == OnGroup(DeleteGroupTx(user, group)) && ReplyAt(sha, h, i).Ok?
    ensures group in Ids(Version(sha, h, i), Groups) && group !in Ids(Version(sha, h, i + 1), Groups)
  {
    VersionStep(sha, h, i);
    GroupIsRemoved(sha, Version(sha, h, i), h[i], user, group);
  }

  lemma GroupIsRemoved(sha: Sha512, db: Db, tx: Tx, user: Uuid, group: Uuid)
    requires tx == OnGroup(DeleteGroupTx(user, group)) && Apply(sha, db, tx).reply.Ok?
    ensures group in Ids(db, Groups) && group !in Ids(Apply(sha, db, tx).db, Groups)
  {
    assert Apply(sha, db, tx) == DeleteGroup(db, user, group);
    DeletedGroup(db, user, group);
  }

  lemma GroupStaysAway(sha: Sha512, h: seq<Tx>, i: nat, k: nat, user: Uuid, group: Uuid)
    requires Fresh(h) && i < k <= |h|
    requires h[i] == OnGroup(DeleteGroupTx(user, group)) && ReplyAt(sha, h, i).Ok?
    ensures group !in Version(sha, h, k).groups
  {
    GroupIsDeleted(sha, h, i, user, group);
    DeletedNeverReturns(sha, h, i, k, Groups, group);
  }

  /** After a committed DeleteGroup no version stores the group, a membership in it or a notification for it. */
  lemma DeletedGroupIsGone(sha: Sha512, h: seq<Tx>, i: nat, k: nat, user: Uuid, group: Uuid)
    requires Fresh(h) && i < k <= |h|
    requires h[i] == OnGroup(DeleteGroupTx(user, group)) && ReplyAt(sha, h, i).Ok?
    ensures var db := Version(sha, h, k);
      && group !in db.groups
      && (forall m :: m in db.memberships ==> m.group != group)
      && (forall n :: n in db.notifications ==> db.notifications[n].group != group)
  {
    GroupStaysAway(sha, h, i, k, user, group);
    EveryStateHasIntegrity(sha, h[..k]);
    NoGroupNoLinks(Version(sha, h, k), group);
  }

  lemma RecipientIsDeleted(sha: Sha512, h: seq<Tx>, i: nat, user: Uuid, recipient: Uuid)
    requires i < |h| && h[i] == OnRecipient(DeleteRecipientTx(user, recipient)) && ReplyAt(sha, h, i).Ok?
    ensures recipient in Ids(Version(sha, h, i), Recipients) && recipient !in Ids(Version(sha, h, i + 1), Recipients)
  {
    VersionStep(sha, h, i);
    DeletedRecipient(Version(sha, h, i), user, recipient);
  }

  lemma RecipientStaysAway(sha: Sha512, h: seq<Tx>, i: nat, k: nat, user: Uuid, recipient: Uuid)
    requires Fresh(h) && i < k <= |h|
    requires h[i] == OnRecipient(DeleteRecipientTx(user, recipient)) && ReplyAt(sha, h, i).Ok?
    ensures recipient !in Version(sha, h, k).recipients
  {
    RecipientIsDeleted(sha, h, i, user, recipient);
    DeletedNeverReturns(sha, h, i, k, Recipients, recipient);
  }

  lemma DeletedRecipientIsGone(sha: Sha512, h: seq<Tx>, i: nat, k: nat, user: Uuid, recipient: Uuid)
    requires Fresh(h) && i < k <= |h|
    requires h[i] == OnRecipient(DeleteRecipientTx(user, recipient)) && ReplyAt(sha, h, i).Ok?
    ensures var db := Version(sha, h, k);
      && recipient !in db.recipients
      && (forall m :: m in db.memberships ==> m.recipient != recipient)
      && (forall n :: n in db.notifications ==> db.notifications[n].recipient != recipient)
  {
    RecipientStaysAway(sha, h, i, k, user, recipient);
    EveryStateHasIntegrity(sha, h[..k]);
    NoRecipientNoLinks(Version(sha, h, k), recipient);
  }

  lemma TemplateIsDeleted(sha: Sha512, h: seq<Tx>, i: nat, user: Uuid, template: Uuid)
    requires i < |h| && h[i] == OnTemplate(DeleteTemplateTx(user, template)) && ReplyAt(sha, h, i).Ok?
    ensures template in Ids(Version(sha, h, i), Templates) && template !in Ids(Version(sha, h, i + 1), Templates)
  {
    VersionStep(sha, h, i);
    DeletedTemplate(Version(sha, h, i), user, template);
  }

  lemma TemplateStaysAway(sha: Sha512, h: seq<Tx>, i: nat, k: nat, user: Uuid, template: Uuid)
    requires Fresh(h) && i < k <= |h|
    requires h[i] == OnTemplate(DeleteTemplateTx(user, template)) && ReplyAt(sha, h, i).Ok?
    ensures template !in Version(sha, h, k).templates
  {
    TemplateIsDeleted(sha, h, i, user, template);
    DeletedNeverReturns(sha, h, i, k, Templates, template);
  }

  /** After a committed DeleteTemplate no version stores the template, and no group or group draft uses it. */
  lemma DeletedTemplateIsGone(sha: Sha512, h: seq<Tx>, i: nat, k: nat, user: Uuid, template: Uuid)
    requires Fresh(h) && i < k <= |h|
    requires h[i] == OnTemplate(DeleteTemplateTx(user, template)) && ReplyAt(sha, h, i).Ok?
    ensures var db := Version(sha, h, k);
      && template !in db.templates
      && (forall g :: g in db.groups ==> db.groups[g].template != Some(template))
      && (forall g :: g in db.groupDrafts ==> db.groupDrafts[g].template != Some(template))
  {
    TemplateStaysAway(sha, h, i, k, user, template);
    EveryStateHasIntegrity(sha, h[..k]);
    NoTemplateNoUse(Version(sha, h, k), template);
  }

  lemma UserIsDeleted(sha: Sha512, h: seq<Tx>, i: nat, user: Uuid)
    requires i < |h| && h[i] == OnUser(DeleteUserTx(user)) && ReplyAt(sha, h, i).Ok?
    ensures user in Ids(Version(sha, h, i), Users) && user !in Ids(Version(sha, h, i + 1), Users)
  {
    var db := Version(sha, h, i);
    VersionStep(sha, h, i);
    DoomedByUser(db, user);
  }

  lemma UserStaysAway(sha: Sha512, h: seq<Tx>, i: nat, k: nat, user: Uuid)
    requires Fresh(h) && i < k <= |h| && h[i] == OnUser(DeleteUserTx(user)) && ReplyAt(sha, h, i).Ok?
    ensures user !in Version(sha, h, k).users
  {
    UserIsDeleted(sha, h, i, user);
    DeletedNeverReturns(sha, h, i, k, Users, user);
  }

  /** After a committed DeleteUser no version stores the account or a row of that tenant. */
  lemma DeletedUserIsGone(sha: Sha512, h: seq<Tx>, i: nat, k: nat, user: Uuid)
    requires Fresh(h) && i < k <= |h| && h[i] == OnUser(DeleteUserTx(user)) && ReplyAt(sha, h, i).Ok?
    ensures user !in Version(sha, h, k).users
    ensures forall t, j :: t != Notifications && j in Ids(Version(sha, h, k), t) ==>
      MasterOf(Version(sha, h, k), t, j) != user
  {
    UserStaysAway(sha, h, i, k, user);
    EveryStateHasIntegrity(sha, h[..k]);
    NoUserNoRows(Version(sha, h, k), user);
  }

  lemma NotificationIsCancelled(sha: Sha512, h: seq<Tx>, i: nat, user: Uuid, id: Uuid)
    requires i < |h| && h[i] == OnNotification(CancelNotificationTx(user, id)) && ReplyAt(sha, h, i).Ok?
    ensures id in Ids(Version(sha, h, i), Notifications) && id !in Ids(Version(sha, h, i + 1), Notifications)
  {
    VersionStep(sha, h, i);
    CancelledNotification(Version(sha, h, i), user, id);
  }

  /** A cancelled notification is in no later version, and every later attempt to cancel it does not find it. */
  lemma CancelledNotificationNeverReturns(sha: Sha512, h: seq<Tx>, i: nat, k: nat, user: Uuid, id: Uuid, v: Uuid)
    requires Fresh(h) && i < k <= |h|
    requires h[i] == OnNotification(CancelNotificationTx(user, id)) && ReplyAt(sha, h, i).Ok?
    ensures id !in Version(sha, h, k).notifications
    ensures CancelNotification(Version(sha, h, k), v, id) == Outcome(Version(sha, h, k), Err(NotificationNotFound))
  {
    NotificationIsCancelled(sha, h, i, user, id);
    DeletedNeverReturns(sha, h, i, k, Notifications, id);
    CancelledNotification(Version(sha, h, k), v, id);
  }
}
