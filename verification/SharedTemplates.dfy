/** What one tenant's batches send when another tenant acts. A group may use a template of another user,
    and then what it sends depends on that user; nothing else does. */
module SharedTemplates {
  import opened Prelude
  import opened Tables
  import opened Cascade
  import opened Deletions
  import opened Requests
  import opened History
  import opened Footprints
  import opened Identity
  import opened Outreach
  import opened Protocol
  import opened ProtocolTheorems
  import opened Tenancy
  import opened Isolation

  function TextOf(templates: map<Uuid, TemplateRow>, template: Uuid): Option<string> {
    if template in templates then templates[template].messageText else None
  }

  predicate UsesThrough(db: Db, v: Uuid, template: Uuid, m: Membership) {
    && m in db.memberships
    && GroupOf(db.groups, m.group, v)
    && db.groups[m.group].active
    && db.groups[m.group].template == Some(template)
    && Subscribed(db, m.recipient)
  }

  /** An active group of v with a subscribed member uses the template. */
  predicate Uses(db: Db, v: Uuid, template: Uuid) {
    exists m :: m in db.memberships && UsesThrough(db, v, template, m)
  }

  /** The transaction gives a template of its user another text, or deletes a template with a text, alone
      or with its user. */
  predicate ChangesText(db: Db, tx: Tx, template: Uuid) {
    match tx
    case OnTemplate(ModifyTemplateTx(user, target, data)) =>
      target == template && OwnsTemplate(db, user, template) && data.messageText != db.templates[template].messageText
    case OnTemplate(DeleteTemplateTx(user, target)) =>
      target == template && OwnsTemplate(db, user, template) && db.templates[template].messageText.Some?
    case OnUser(DeleteUserTx(user)) =>
      OwnsTemplate(db, user, template) && db.templates[template].messageText.Some?
    case _ => false
  }

  // ----- Which transactions change which texts -----

  lemma TextAfterTemplateRequest(db: Db, tx: TemplateTx, template: Uuid)
    requires template in db.templates
    ensures TextOf(ApplyTemplate(db, tx).db.templates, template) != TextOf(db.templates, template)
      <==> ChangesText(db, OnTemplate(tx), template)
  {
    match tx
    case CreateTemplateTx(user, id, data) => CreateTemplateFootprint(db, user, id, data);
    case ConfirmTemplateTx(user, draft, id) => ConfirmedTemplatesStay(db, user, draft, id, template);
    case ModifyTemplateTx(user, target, data) => TextAfterModification(db, user, target, data, template);
    case DeleteTemplateTx(user, target) => DeletingATemplate(db, target);
  }

  lemma ConfirmedTemplatesStay(db: Db, user: Uuid, draft: Uuid, id: Uuid, template: Uuid)
    requires template in db.templates
    ensures var next := ConfirmTemplate(db, user, draft, id).db.templates;
      template in next && next[template] == db.templates[template]
  {
  }

  lemma TextAfterModification(db: Db, user: Uuid, target: Uuid, data: TemplateData, template: Uuid)
    requires template in db.templates
    ensures TextOf(ModifyTemplate(db, user, target, data).db.templates, template) ==
      if target == template && OwnsTemplate(db, user, template) then data.messageText
      else TextOf(db.templates, template)
  {
  }

  lemma TextAfterUserRequest(sha: Sha512, db: Db, tx: UserTx, template: Uuid)
    requires TemplateKeys(db.templates, db.users) && template in db.templates
    ensures TextOf(ApplyUser(sha, db, tx).db.templates, template) != TextOf(db.templates, template)
      <==> ChangesText(db, OnUser(tx), template)
  {
    if tx.DeleteUserTx? {
      DeletedUsersTemplates(db, tx.user);
    } else {
      UserFootprint(sha, db, tx);
    }
  }

  lemma DeletedUsersTemplates(db: Db, user: Uuid)
    ensures DeleteUser(db, user).db.templates ==
      if user in db.users then TemplatesWithout(db.templates, user) else db.templates
  {
    var gone := Doomed(db, {Row(Users, user)});
    DoomedByUser(db, user);
    KeepOthersTemplates(db, gone, user);
  }

  lemma TextAfter(sha: Sha512, db: Db, tx: Tx, template: Uuid)
    requires TemplateKeys(db.templates, db.users) && template in db.templates
    ensures TextOf(Apply(sha, db, tx).db.templates, template) != TextOf(db.templates, template)
      <==> ChangesText(db, tx, template)
  {
    match tx
    case OnUser(t) => TextAfterUserRequest(sha, db, t, template);
    case OnTemplate(t) => TextAfterTemplateRequest(db, t, template);
    case OnRecipient(t) => RecipientFootprint(db, t);
    case OnGroup(t) => GroupFootprint(db, t);
    case OnNotification(t) => NotificationFootprint(db, t);
    case OnContact(t) => ContactFootprint(db, t);
  }

  // ----- What a transaction of another tenant keeps -----

  /** The group and the recipient are linked, and the group is one of v. */
  predicate Linked(db: Db, v: Uuid, m: Membership) {
    m in db.memberships && GroupOf(db.groups, m.group, v)
  }

  /** The links of v, the state of their groups and the chats of their recipients are the same; a group
      has the template it had, unless that template is gone. */
  ghost predicate SameAudience(db: Db, next: Db, v: Uuid) {
    && next.contacts == db.contacts
    && (forall m :: Linked(next, v, m) <==> Linked(db, v, m))
    && (forall m :: Linked(db, v, m) ==>
          && m.recipient in db.recipients && m.recipient in next.recipients
          && next.recipients[m.recipient] == db.recipients[m.recipient]
          && next.groups[m.group].active == db.groups[m.group].active)
    && (forall m :: Linked(db, v, m) ==>
          || next.groups[m.group].template == db.groups[m.group].template
          || (next.groups[m.group].template.None? && TextFor(next.templates, db.groups[m.group].template).None?))
  }

  function TextFor(templates: map<Uuid, TemplateRow>, key: Option<Uuid>): Option<string> {
    if key.Some? then TextOf(templates, key.value) else None
  }

  lemma SameViewSameAudience(db: Db, next: Db, u: Uuid, v: Uuid)
    requires Coherent(db) && next.contacts == db.contacts && ViewOf(next, v) == ViewOf(db, v)
    requires OnlyNulled(db.groups, next.groups, db.templates, next.templates, u, v)
    ensures SameAudience(db, next, v)
  {
    SameGroupsOfView(db, next, v);
    forall m
      ensures Linked(next, v, m) <==> Linked(db, v, m)
    {
      assert m in MembershipsOf(next.memberships, next.groups, v) <==> m in MembershipsOf(db.memberships, db.groups, v);
    }
    forall m | Linked(db, v, m)
      ensures m.recipient in db.recipients && m.recipient in next.recipients
      ensures next.recipients[m.recipient] == db.recipients[m.recipient]
    {
      assert MembershipReferences(m, db.recipients, db.groups);
      assert m.recipient in RecipientsOf(db.recipients, v);
      assert m.recipient in RecipientsOf(next.recipients, v);
    }
  }

  lemma SameGroupsOfView(db: Db, next: Db, v: Uuid)
    requires ViewOf(next, v) == ViewOf(db, v)
    ensures forall g :: GroupOf(next.groups, g, v) <==> GroupOf(db.groups, g, v)
    ensures forall g :: GroupOf(db.groups, g, v) ==>
      g in next.groups && next.groups[g].active == db.groups[g].active
  {
    forall g
      ensures GroupOf(next.groups, g, v) <==> GroupOf(db.groups, g, v)
      ensures GroupOf(db.groups, g, v) ==> g in next.groups && next.groups[g].active == db.groups[g].active
    {
      assert g in GroupsOf(next.groups, v) <==> g in GroupsOf(db.groups, v);
      if g in GroupsOf(db.groups, v) {
        assert GroupsOf(next.groups, v)[g] == GroupsOf(db.groups, v)[g];
      }
    }
  }

  // ----- From the audience and the texts to the targets -----

  /** What the batch of v delivers through one membership. */
  function DeliveryFor(db: Db, v: Uuid, m: Membership): Option<Delivery> {
    if m in db.memberships && GroupReaches(db, v, m.group) && Subscribed(db, m.recipient) then Some(DeliveryOf(db, m))
    else None
  }

  lemma SameDeliveriesSameTargets(db: Db, next: Db, v: Uuid)
    requires forall m :: DeliveryFor(next, v, m) == DeliveryFor(db, v, m)
    ensures Targets(next, v) == Targets(db, v)
  {
    forall d
      ensures d in Targets(next, v) <==> d in Targets(db, v)
    {
      TargetIsDelivery(db, v, d);
      TargetIsDelivery(next, v, d);
    }
  }

  lemma TargetIsDelivery(db: Db, v: Uuid, d: Delivery)
    ensures d in Targets(db, v) <==> DeliveryFor(db, v, Membership(d.recipient, d.group)) == Some(d)
  {
    if d in Targets(db, v) {
      var m :| m in db.memberships && GroupReaches(db, v, m.group) && Subscribed(db, m.recipient)
        && d == DeliveryOf(db, m);
      assert m == Membership(d.recipient, d.group);
    }
  }

  lemma OtherDeliveryOtherTargets(db: Db, next: Db, v: Uuid, m: Membership)
    requires DeliveryFor(next, v, m) != DeliveryFor(db, v, m)
    ensures Targets(next, v) != Targets(db, v)
  {
    var d := if DeliveryFor(db, v, m).Some? then DeliveryFor(db, v, m).value else DeliveryFor(next, v, m).value;
    assert m == Membership(d.recipient, d.group);
    TargetIsDelivery(db, v, d);
    TargetIsDelivery(next, v, d);
  }

  lemma DeliveryFollowsText(db: Db, next: Db, v: Uuid, m: Membership)
    requires SameAudience(db, next, v)
    ensures DeliveryFor(next, v, m) != DeliveryFor(db, v, m) <==>
      && Linked(db, v, m) && db.groups[m.group].active && Subscribed(db, m.recipient)
      && TextFor(next.templates, db.groups[m.group].template) != TextFor(db.templates, db.groups[m.group].template)
  {
    assert Linked(next, v, m) <==> Linked(db, v, m);
  }

  lemma TargetsFollowTexts(db: Db, next: Db, v: Uuid)
    requires SameAudience(db, next, v)
    ensures Targets(next, v) != Targets(db, v) <==>
      exists t :: TextOf(next.templates, t) != TextOf(db.templates, t) && Uses(db, v, t)
  {
    if t :| TextOf(next.templates, t) != TextOf(db.templates, t) && Uses(db, v, t) {
      var m :| m in db.memberships && UsesThrough(db, v, t, m);
      DeliveryFollowsText(db, next, v, m);
      OtherDeliveryOtherTargets(db, next, v, m);
    } else {
      forall m
        ensures DeliveryFor(next, v, m) == DeliveryFor(db, v, m)
      {
        DeliveryFollowsText(db, next, v, m);
        if DeliveryFor(next, v, m) != DeliveryFor(db, v, m) {
          assert UsesThrough(db, v, db.groups[m.group].template.value, m);
          assert false;
        }
      }
      SameDeliveriesSameTargets(db, next, v);
    }
  }

  // ----- The exact condition -----

  lemma AudienceSurvives(sha: Sha512, db: Db, tx: Tx, u: Uuid, v: Uuid)
    requires Coherent(db) && RunsAs(db, tx, u) && u != v && !tx.OnContact? && !tx.OnNotification?
    ensures SameAudience(db, Apply(sha, db, tx).db, v)
  {
    OtherTenantsAreUntouched(sha, db, tx, u, v);
    OnlyCommandsTouchContacts(sha, db, tx);
    SameViewSameAudience(db, Apply(sha, db, tx).db, u, v);
  }

  lemma NotificationsKeepTargets(sha: Sha512, db: Db, tx: Tx, v: Uuid)
    requires tx.OnNotification?
    ensures Targets(Apply(sha, db, tx).db, v) == Targets(db, v)
    ensures forall t :: !ChangesText(db, tx, t)
  {
    NotificationFootprint(db, tx.notification);
    TargetsIgnoreBatches(db, Apply(sha, db, tx).db, v);
  }

  /** Only a stored template can be used, since the key of a group refers to a stored row. */
  lemma UsedTemplatesAreStored(db: Db, v: Uuid, t: Uuid)
    requires ForeignKeys(db) && Uses(db, v, t)
    ensures t in db.templates
  {
    var m :| m in db.memberships && UsesThrough(db, v, t, m);
    assert GroupReferences(db.groups[m.group], db.users, db.templates);
  }

  /** What the batches of v send changes with a request of another user exactly when the request changes
      or deletes the text of a template that an active group of v with a subscribed member uses. */
  lemma OthersChangeTargetsExactly(sha: Sha512, db: Db, tx: Tx, u: Uuid, v: Uuid)
    requires ForeignKeys(db) && Coherent(db) && RunsAs(db, tx, u) && u != v && !tx.OnContact?
    ensures Targets(Apply(sha, db, tx).db, v) != Targets(db, v) <==>
      exists t :: ChangesText(db, tx, t) && Uses(db, v, t)
  {
    if tx.OnNotification? {
      NotificationsKeepTargets(sha, db, tx, v);
    } else {
      AudienceSurvives(sha, db, tx, u, v);
      TargetsFollowTexts(db, Apply(sha, db, tx).db, v);
      forall t | Uses(db, v, t)
        ensures TextOf(Apply(sha, db, tx).db.templates, t) != TextOf(db.templates, t) <==> ChangesText(db, tx, t)
      {
        UsedTemplatesAreStored(db, v, t);
        TextAfter(sha, db, tx, t);
      }
    }
  }

  /** Every group of v that has a template has one of v. */
  ghost predicate OwnTemplatesOnly(db: Db, v: Uuid) {
    forall g :: GroupOf(db.groups, g, v) && db.groups[g].template.Some? ==>
      OwnsTemplate(db, v, db.groups[g].template.value)
  }

  lemma UsedTemplatesAreOwn(db: Db, v: Uuid, t: Uuid)
    requires OwnTemplatesOnly(db, v) && Uses(db, v, t)
    ensures OwnsTemplate(db, v, t)
  {
    var m :| m in db.memberships && UsesThrough(db, v, t, m);
  }

  /** A user who keeps to own templates sends what no other user can change. */
  lemma OwnTemplatesAreIsolated(sha: Sha512, db: Db, tx: Tx, u: Uuid, v: Uuid)
    requires ForeignKeys(db) && Coherent(db) && RunsAs(db, tx, u) && u != v && !tx.OnContact?
    requires OwnTemplatesOnly(db, v)
    ensures Targets(Apply(sha, db, tx).db, v) == Targets(db, v)
  {
    OthersChangeTargetsExactly(sha, db, tx, u, v);
    forall t | ChangesText(db, tx, t)
      ensures !Uses(db, v, t)
    {
      assert OwnsTemplate(db, u, t);
      if Uses(db, v, t) { UsedTemplatesAreOwn(db, v, t); }
    }
  }

  /** The exact condition, for every step of every run. */
  lemma OthersChangeTargetsInARun(sha: Sha512, actions: seq<Action>, k: nat, u: Uuid, v: Uuid)
    requires Run(sha, actions) && k < |After(sha, actions).history| && u != v
    requires RunsAs(Version(sha, After(sha, actions).history, k), After(sha, actions).history[k], u)
    requires !After(sha, actions).history[k].OnContact?
    ensures var db, tx := Version(sha, After(sha, actions).history, k), After(sha, actions).history[k];
      Targets(Version(sha, After(sha, actions).history, k + 1), v) != Targets(db, v) <==>
        exists t :: ChangesText(db, tx, t) && Uses(db, v, t)
  {
    var h := After(sha, actions).history;
    EveryVersionIsCoherent(sha, actions, k);
    OthersChangeTargetsExactly(sha, Version(sha, h, k), h[k], u, v);
    VersionStep(sha, h, k);
  }

  // ----- Own templates over whole runs -----

  lemma OwnTemplatesStayOwn(db: Db, next: Db, u: Uuid, v: Uuid)
    requires OwnTemplatesOnly(db, v) && ViewOf(next, v) == ViewOf(db, v)
    requires OnlyNulled(db.groups, next.groups, db.templates, next.templates, u, v)
    ensures OwnTemplatesOnly(next, v)
  {
    SameGroupsOfView(db, next, v);
    forall g | GroupOf(next.groups, g, v) && next.groups[g].template.Some?
      ensures OwnsTemplate(next, v, next.groups[g].template.value)
    {
      assert OwnsTemplate(db, v, next.groups[g].template.value);
      assert next.groups[g].template.value in TemplatesOf(db.templates, v);
      assert next.groups[g].template.value in TemplatesOf(next.templates, v);
    }
  }

  lemma OthersKeepOwnTemplates(sha: Sha512, db: Db, tx: Tx, v: Uuid)
    requires ForeignKeys(db) && Coherent(db) && OwnTemplatesOnly(db, v)
    requires !tx.OnContact? && ByOthers(db, tx, v)
    ensures Targets(Apply(sha, db, tx).db, v) == Targets(db, v)
    ensures OwnTemplatesOnly(Apply(sha, db, tx).db, v)
  {
    if tx.OnNotification? {
      NotificationFootprint(db, tx.notification);
      NotificationsKeepTargets(sha, db, tx, v);
    } else {
      OwnTemplatesAreIsolated(sha, db, tx, ActorOf(tx), v);
      OtherTenantsAreUntouched(sha, db, tx, ActorOf(tx), v);
      OwnTemplatesStayOwn(db, Apply(sha, db, tx).db, ActorOf(tx), v);
    }
  }

  /** In every run, as long as only others act and no chat subscribes or stops, the batches of a user who
      keeps to own templates send the same. */
  lemma {:induction false} OwnTemplatesAreIsolatedInARun(sha: Sha512, actions: seq<Action>, j: nat, k: nat, v: Uuid)
    requires Run(sha, actions) && j <= k <= |After(sha, actions).history|
    requires OwnTemplatesOnly(Version(sha, After(sha, actions).history, j), v)
    requires forall i :: j <= i < k ==>
      && !After(sha, actions).history[i].OnContact?
      && ByOthers(Version(sha, After(sha, actions).history, i), After(sha, actions).history[i], v)
    ensures Targets(Version(sha, After(sha, actions).history, k), v)
         == Targets(Version(sha, After(sha, actions).history, j), v)
    ensures OwnTemplatesOnly(Version(sha, After(sha, actions).history, k), v)
    decreases k
  {
    if j < k {
      var h := After(sha, actions).history;
      OwnTemplatesAreIsolatedInARun(sha, actions, j, k - 1, v);
      EveryVersionIsCoherent(sha, actions, k - 1);
      OthersKeepOwnTemplates(sha, Version(sha, h, k - 1), h[k - 1], v);
      VersionStep(sha, h, k - 1);
    }
  }

  // ----- Using a template of another user -----

  lemma GroupIsShared(db: Db, v: Uuid, t: Uuid, name: string, draft: Uuid, group: Uuid, recipient: Uuid)
    requires v in db.users && t in db.templates && db.templates[t].messageText.Some?
    requires draft !in db.groupDrafts && group !in db.groups && OwnsRecipient(db, v, recipient)
    requires Membership(recipient, group) !in db.memberships
    ensures var created := CreateGroup(db, v, draft, GroupData(name, TemplateId(t), true)).db;
      var confirmed := ConfirmGroup(created, v, draft, group).db;
      var row := GroupRow(name, true, v, Some(t));
      && confirmed == created.(groups := db.groups[group := row], templateDrafts := confirmed.templateDrafts)
      && created == db.(groupDrafts := db.groupDrafts[draft := row])
      && AddRecipient(confirmed, v, group, recipient).db
           == confirmed.(memberships := db.memberships + {Membership(recipient, group)})
  {
  }

  /** A user can make a group with a template of any user, confirm it and add a recipient; its deliveries
      then carry the text of that template. */
  lemma AnyTemplateCanBeUsed(
    sha: Sha512, db: Db, v: Uuid, t: Uuid, name: string, draft: Uuid, group: Uuid, recipient: Uuid)
    requires v in db.users && t in db.templates && db.templates[t].messageText.Some?
    requires draft !in db.groupDrafts && group !in db.groups && OwnsRecipient(db, v, recipient)
    requires Membership(recipient, group) !in db.memberships && Subscribed(db, recipient)
    ensures var created := Apply(sha, db, OnGroup(CreateGroupTx(v, draft, GroupData(name, TemplateId(t), true)))).db;
      var confirmed := Apply(sha, created, OnGroup(ConfirmGroupTx(v, draft, group))).db;
      var next := Apply(sha, confirmed, OnGroup(AddRecipientTx(v, group, recipient))).db;
      && Uses(next, v, t)
      && Delivery(group, recipient, db.recipients[recipient].telegramId.value, db.templates[t].messageText.value)
           in Targets(next, v)
  {
    var created := CreateGroup(db, v, draft, GroupData(name, TemplateId(t), true)).db;
    var confirmed := ConfirmGroup(created, v, draft, group).db;
    var next := AddRecipient(confirmed, v, group, recipient).db;
    GroupIsShared(db, v, t, name, draft, group, recipient);
    var m := Membership(recipient, group);
    assert UsesThrough(next, v, t, m);
    assert DeliveryOf(next, m) in Targets(next, v);
  }
}
