/** Groups, group drafts and group members: each method is one transaction on the cluster. */
module GroupManagement {
  import opened Prelude
  import opened Tables
  import opened Cascade
  import opened Deletions
  import opened Requests
  import opened RequestEffects
  import opened Storage

  // ----- The query behind GetRecipients -----

  /** The columns of the left joins; all are NULL when there is no member. */
  datatype MemberRow = MemberRow(
    recipientId: Option<Uuid>,
    name: Option<string>,
    email: Option<string>,
    phoneNumber: Option<string>,
    telegramId: Option<ChatId>)

  const NO_MEMBER := MemberRow(None, None, None, None, None)

  /** What GetRecipients answers for one member: the id, and the row with the caller as its master. */
  datatype GroupMember = GroupMember(id: Uuid, row: RecipientRow)

  function MembershipsIn(db: Db, group: Uuid): set<Membership> {
    set m | m in db.memberships && m.group == group
  }

  /** The combinations of the first left join: a group without memberships gives one, with NULL. */
  function LeftJoin(db: Db, group: Uuid): set<Option<Membership>> {
    if MembershipsIn(db, group) == {} then {None} else set m | m in MembershipsIn(db, group) :: Some(m)
  }

  /** The second left join adds the recipient of the membership, or NULL. */
  function MemberRowOf(db: Db, key: Option<Membership>): MemberRow {
    if key.Some? && key.value.recipient in db.recipients then
      var row := db.recipients[key.value.recipient];
      MemberRow(Some(key.value.recipient), Some(row.name), row.email, row.phoneNumber, row.telegramId)
    else NO_MEMBER
  }

  function MemberOf(db: Db, user: Uuid, recipient: Uuid): GroupMember
    requires recipient in db.recipients
  {
    GroupMember(recipient, db.recipients[recipient].(master := user))
  }

  /** The members of a group, with the master that the caller puts in. */
  function MembersOf(db: Db, user: Uuid, group: Uuid): set<GroupMember> {
    set m | m in MembershipsIn(db, group) && m.recipient in db.recipients :: MemberOf(db, user, m.recipient)
  }

  /** The recipients with a membership in the group, and no others. */
  lemma MembersInRows(db: Db, user: Uuid, group: Uuid)
    ensures MembershipsIn(db, group) == {} <==> forall m :: m in db.memberships ==> m.group != group
    ensures forall x :: x in MembersOf(db, user, group) <==>
      && Membership(x.id, group) in db.memberships
      && x.id in db.recipients && x.row == db.recipients[x.id].(master := user)
  {
    if m :| m in db.memberships && m.group == group {
      assert m in MembershipsIn(db, group);
    }
    forall x: GroupMember | Membership(x.id, group) in db.memberships && x.id in db.recipients
      && x.row == db.recipients[x.id].(master := user)
      ensures x in MembersOf(db, user, group)
    {
      assert Membership(x.id, group) in MembershipsIn(db, group) && x == MemberOf(db, user, x.id);
    }
  }

  /** The master that the caller puts in is the stored one. */
  lemma MembersCarryTheirMaster(db: Db, user: Uuid, group: Uuid, member: GroupMember)
    requires CoherentMemberships(db.memberships, db.recipients, db.groups)
    requires OwnsGroup(db, user, group) && member in MembersOf(db, user, group)
    ensures member.id in db.recipients && member.row == db.recipients[member.id]
  {
    var m :| m in MembershipsIn(db, group) && m.recipient in db.recipients && member == MemberOf(db, user, m.recipient);
    assert MembershipReferences(m, db.recipients, db.groups);
  }

  /** A group with members gives one row for each of them; a group without gives one row of NULLs. */
  lemma LeftJoinRows(db: Db, group: Uuid, keys: seq<Option<Membership>>)
    requires MembershipKeys(db.memberships, db.recipients, db.groups)
    requires Enumerates(keys, LeftJoin(db, group))
    ensures MembershipsIn(db, group) == {} ==> |keys| == 1 && MemberRowOf(db, keys[0]) == NO_MEMBER
    ensures MembershipsIn(db, group) != {} ==> forall i :: 0 <= i < |keys| ==>
      keys[i].Some? && keys[i].value in MembershipsIn(db, group) && keys[i].value.recipient in db.recipients
    ensures |keys| > 0
  {
    if MembershipsIn(db, group) == {} {
      OneElement(keys, None);
    } else {
      var m :| m in MembershipsIn(db, group);
      assert Some(m) in LeftJoin(db, group);
      forall i | 0 <= i < |keys|
        ensures keys[i].Some? && keys[i].value in MembershipsIn(db, group) && keys[i].value.recipient in db.recipients
      {
        assert keys[i] in LeftJoin(db, group);
        assert MembershipReferences(keys[i].value, db.recipients, db.groups);
      }
    }
  }

  lemma MembersEnumerated(db: Db, user: Uuid, group: Uuid, keys: seq<Option<Membership>>, members: seq<GroupMember>)
    requires MembershipKeys(db.memberships, db.recipients, db.groups)
    requires MembershipsIn(db, group) != {} && Enumerates(keys, LeftJoin(db, group)) && |members| == |keys|
    requires forall i :: 0 <= i < |keys| ==>
      && keys[i].Some? && keys[i].value in MembershipsIn(db, group) && keys[i].value.recipient in db.recipients
      && members[i] == MemberOf(db, user, keys[i].value.recipient)
    ensures Enumerates(members, MembersOf(db, user, group))
  {
    forall i, j | 0 <= i < j < |members|
      ensures members[i] != members[j]
    {
      assert keys[i].value.group == keys[j].value.group;
    }
    forall x
      ensures x in members <==> x in MembersOf(db, user, group)
    {
      if x in MembersOf(db, user, group) {
        var m :| m in MembershipsIn(db, group) && m.recipient in db.recipients && x == MemberOf(db, user, m.recipient);
        assert Some(m) in keys;
        var i :| 0 <= i < |keys| && keys[i] == Some(m);
        assert members[i] == x;
      }
    }
  }

  class GroupManager {
    const cluster: Cluster

    constructor (cluster: Cluster)
      ensures this.cluster == cluster
    {
      this.cluster := cluster;
    }

    method Create(user: Uuid, id: Uuid, data: GroupData) returns (r: Result<Reply>)
      modifies cluster
      ensures Outcome(cluster.db, r) == CreateGroup(old(cluster.db), user, id, data)
      ensures r.Ok? ==>
        && id in cluster.db.groupDrafts && GroupColumns(cluster.db.groupDrafts[id], data, user)
        && r == Ok(OneGroup(id, cluster.db.groupDrafts[id]))
    {
      CreatedGroup(cluster.db, user, id, data);
      var transaction := new Transaction.Begin(cluster);
      if data.template.NotAUuid? {
        return Err(IncorrectTemplateId);
      }
      var row := GroupRow(data.name, data.active, user, TemplateKey(data.template));
      var failure := transaction.Execute(InsertGroupDraft(transaction.work, id, row));
      if failure == Some(ForeignKeyViolation) {
        return Err(BlameTemplate(data.template));
      }
      if failure.Some? {
        return Err(failure.value);
      }
      transaction.Commit();
      return Ok(OneGroup(id, row));
    }

    /** Answers each member of a group once. For an empty group the left join gives one row whose
        recipient_id is NULL, and converting it fails. */
    method GetRecipients(user: Uuid, group: Uuid) returns (r: Result<seq<GroupMember>>)
      requires MembershipKeys(cluster.db.memberships, cluster.db.recipients, cluster.db.groups)
      ensures r == Err(GroupNotFound) <==> !OwnsGroup(cluster.db, user, group)
      ensures r == Err(NullConversion) <==>
        OwnsGroup(cluster.db, user, group) && forall m :: m in cluster.db.memberships ==> m.group != group
      ensures r.Ok? <==>
        OwnsGroup(cluster.db, user, group) && exists m :: m in cluster.db.memberships && m.group == group
      ensures r.Ok? ==> Enumerates(r.value, MembersOf(cluster.db, user, group))
      ensures r.Ok? ==> forall x :: x in r.value <==>
        && Membership(x.id, group) in cluster.db.memberships
        && x.id in cluster.db.recipients && x.row == cluster.db.recipients[x.id].(master := user)
    {
      var db := cluster.db;
      if !OwnsGroup(db, user, group) {
        return Err(GroupNotFound);
      }
      MembersInRows(db, user, group);
      var keys := Scan(LeftJoin(db, group));
      LeftJoinRows(db, group, keys);
      var members := [];
      for i := 0 to |keys|
        invariant |members| == i
        invariant i > 0 ==> MembershipsIn(db, group) != {}
        invariant forall j :: 0 <= j < i ==> members[j] == MemberOf(db, user, keys[j].value.recipient)
      {
        var row := MemberRowOf(db, keys[i]);
        if row.recipientId.None? || row.name.None? {
          return Err(NullConversion);
        }
        var columns := RecipientRow(row.name.value, row.email, row.phoneNumber, row.telegramId, user);
        members := members + [GroupMember(row.recipientId.value, columns)];
      }
      MembersEnumerated(db, user, group, keys, members);
      return Ok(members);
    }

    method ConfirmCreation(user: Uuid, draft: Uuid, id: Uuid) returns (r: Result<Reply>)
      modifies cluster
      ensures Outcome(cluster.db, r) == ConfirmGroup(old(cluster.db), user, draft, id)
    {
      var transaction := new Transaction.Begin(cluster);
      if !OwnsGroupDraft(transaction.work, user, draft) {
        transaction.Rollback();
        return Err(DraftNotFound);
      }
      var row := transaction.work.groupDrafts[draft];
      var failure := transaction.Execute(InsertGroup(transaction.work, id, row));
      if failure.Some? {
        return Err(failure.value);
      }
      var _ := transaction.Execute(Ok(DropTemplateDraft(transaction.work, user, draft)));
      transaction.Commit();
      return Ok(OneGroup(id, row));
    }

    method ModifyGroup(user: Uuid, group: Uuid, data: GroupData) returns (r: Result<Reply>)
      modifies cluster
      ensures Outcome(cluster.db, r) == Requests.ModifyGroup(old(cluster.db), user, group, data)
      ensures r.Ok? ==>
        && group in cluster.db.groups && GroupColumns(cluster.db.groups[group], data, user)
        && r == Ok(OneGroup(group, cluster.db.groups[group]))
    {
      ModifiedGroup(cluster.db, user, group, data);
      var transaction := new Transaction.Begin(cluster);
      if data.template.NotAUuid? {
        return Err(IncorrectTemplateId);
      }
      if !OwnsGroup(transaction.work, user, group) {
        transaction.Rollback();
        return Err(GroupNotFound);
      }
      var row := transaction.work.groups[group].(
        name := data.name, template := TemplateKey(data.template), active := data.active);
      var failure := transaction.Execute(UpdateGroup(transaction.work, group, row));
      if failure == Some(ForeignKeyViolation) {
        return Err(IncorrectTemplateId);
      }
      transaction.Commit();
      return Ok(OneGroup(group, row));
    }

    method AddRecipient(user: Uuid, group: Uuid, recipient: Uuid) returns (r: Result<Reply>)
      modifies cluster
      ensures Outcome(cluster.db, r) == Requests.AddRecipient(old(cluster.db), user, group, recipient)
      ensures r.Ok? ==> Membership(recipient, group) in cluster.db.memberships
    {
      AddedRecipient(cluster.db, user, group, recipient);
      var transaction := new Transaction.Begin(cluster);
      if !OwnsGroup(transaction.work, user, group) {
        transaction.Rollback();
        return Err(GroupNotFound);
      }
      if !OwnsRecipient(transaction.work, user, recipient) {
        transaction.Rollback();
        return Err(RecipientNotFound);
      }
      var failure := transaction.Execute(InsertMembership(transaction.work, Membership(recipient, group)));
      if failure == Some(UniqueViolation) {
        transaction.Rollback();
        return Err(RecipientAlreadyAdded);
      }
      transaction.Commit();
      return Ok(Done);
    }

    method DeleteGroup(user: Uuid, group: Uuid) returns (r: Result<Reply>)
      modifies cluster
      ensures Outcome(cluster.db, r) == Requests.DeleteGroup(old(cluster.db), user, group)
      ensures cluster.db == if r == Ok(Done) then WithoutGroup(old(cluster.db), group) else old(cluster.db)
    {
      DeletedGroup(cluster.db, user, group);
      var transaction := new Transaction.Begin(cluster);
      if !OwnsGroup(transaction.work, user, group) {
        transaction.Rollback();
        return Err(GroupNotFound);
      }
      var rest := RunCascade(transaction.work, {Row(Groups, group)});
      var _ := transaction.Execute(Ok(rest));
      transaction.Commit();
      return Ok(Done);
    }

    method DeleteRecipient(user: Uuid, group: Uuid, recipient: Uuid) returns (r: Result<Reply>)
      modifies cluster
      ensures Outcome(cluster.db, r) == RemoveRecipient(old(cluster.db), user, group, recipient)
      ensures r.Ok? ==> Membership(recipient, group) !in cluster.db.memberships
    {
      RemovedRecipient(cluster.db, user, group, recipient);
      var transaction := new Transaction.Begin(cluster);
      if !OwnsGroup(transaction.work, user, group) {
        transaction.Rollback();
        return Err(GroupNotFound);
      }
      if !OwnsRecipient(transaction.work, user, recipient) {
        transaction.Rollback();
        return Err(RecipientNotFound);
      }
      var m := Membership(recipient, group);
      if m !in transaction.work.memberships {
        transaction.Rollback();
        return Err(RecipientNotAdded);
      }
      var memberships := transaction.work.memberships - {m};
      var _ := transaction.Execute(Ok(transaction.work.(memberships := memberships)));
      transaction.Commit();
      return Ok(Done);
    }
  }
}
