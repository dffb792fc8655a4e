/** A user makes a group with a template of another user, and the other user then changes what it sends:
    from every run that has the rows, and from the empty store. */
module SharingRuns {
  import opened Prelude
  import opened Tables
  import opened Requests
  import opened History
  import opened SchemaIntegrity
  import opened Outreach
  import opened Protocol
  import opened ProtocolSafety
  import opened ProtocolTheorems
  import opened Runs
  import opened SharedTemplates

  // ----- From every run -----

  /** User v makes an active group with the template, confirms it, and adds the recipient. */
  function WithSharing(
    h: seq<Tx>, v: Uuid, template: Uuid, recipient: Uuid, draft: Uuid, group: Uuid, name: string): seq<Tx>
  {
    h + [OnGroup(CreateGroupTx(v, draft, GroupData(name, TemplateId(template), true)))]
    + [OnGroup(ConfirmGroupTx(v, draft, group))] + [OnGroup(AddRecipientTx(v, group, recipient))]
  }

  function AfterSharing(
    sha: Sha512, db: Db, v: Uuid, template: Uuid, recipient: Uuid, draft: Uuid, group: Uuid, name: string): Db
  {
    var created := Apply(sha, db, OnGroup(CreateGroupTx(v, draft, GroupData(name, TemplateId(template), true)))).db;
    var confirmed := Apply(sha, created, OnGroup(ConfirmGroupTx(v, draft, group))).db;
    Apply(sha, confirmed, OnGroup(AddRecipientTx(v, group, recipient))).db
  }

  lemma {:induction false} ThreeRequestsRun(sha: Sha512, actions: seq<Action>, a: Tx, b: Tx, c: Tx)
    returns (run: seq<Action>)
    requires Run(sha, actions) && Unconditional(a) && Unconditional(b) && Unconditional(c)
    requires DrawnBy(a) !! Registry(After(sha, actions).history).Keys
    requires DrawnBy(b) !! Registry(After(sha, actions).history).Keys + DrawnBy(a) && DrawnBy(c) == {}
    ensures Run(sha, run)
    ensures After(sha, run) == After(sha, actions).(history := After(sha, actions).history + [a] + [b] + [c])
    ensures Registry(After(sha, run).history).Keys
         == Registry(After(sha, actions).history).Keys + DrawnBy(a) + DrawnBy(b)
    ensures Exec(sha, After(sha, run).history)
         == Apply(sha, Apply(sha, Apply(sha, Exec(sha, After(sha, actions).history), a).db, b).db, c).db
  {
    var first := RequestRunsOn(sha, actions, a);
    var second := RequestRunsOn(sha, first, b);
    run := RequestRunsOn(sha, second, c);
  }

  /** What sharing needs of a database: a stored template with a text, and a subscribed recipient of v. */
  predicate Sharable(db: Db, v: Uuid, template: Uuid, recipient: Uuid) {
    && template in db.templates && db.templates[template].messageText.Some?
    && OwnsRecipient(db, v, recipient) && Subscribed(db, recipient)
  }

  lemma CoherentAtTheEnd(sha: Sha512, actions: seq<Action>)
    requires Run(sha, actions)
    ensures ForeignKeys(Exec(sha, After(sha, actions).history)) && Coherent(Exec(sha, After(sha, actions).history))
  {
    EveryVersionIsCoherent(sha, actions, |After(sha, actions).history|);
    LastVersion(sha, After(sha, actions).history);
  }

  lemma NoMembersYet(sha: Sha512, h: seq<Tx>, v: Uuid, recipient: Uuid, group: Uuid)
    requires OwnsRecipient(Exec(sha, h), v, recipient) && group !in Exec(sha, h).groups
    ensures v in Exec(sha, h).users && Membership(recipient, group) !in Exec(sha, h).memberships
  {
    EveryStateHasIntegrity(sha, h);
    NotAMemberYet(Exec(sha, h), v, recipient, group);
  }

  lemma NotAMemberYet(db: Db, v: Uuid, recipient: Uuid, group: Uuid)
    requires ForeignKeys(db) && OwnsRecipient(db, v, recipient) && group !in db.groups
    ensures v in db.users && Membership(recipient, group) !in db.memberships
  {
    var m := Membership(recipient, group);
    assert m in db.memberships ==> MembershipReferences(m, db.recipients, db.groups);
  }

  lemma SharedState(
    sha: Sha512, db: Db, v: Uuid, template: Uuid, recipient: Uuid, draft: Uuid, group: Uuid, name: string)
    requires Sharable(db, v, template, recipient) && v in db.users
    requires draft !in db.groupDrafts && group !in db.groups && Membership(recipient, group) !in db.memberships
    ensures var next := AfterSharing(sha, db, v, template, recipient, draft, group, name);
      && Uses(next, v, template)
      && next.templates == db.templates
      && Delivery(group, recipient, db.recipients[recipient].telegramId.value, db.templates[template].messageText.value)
           in Targets(next, v)
  {
    AnyTemplateCanBeUsed(sha, db, v, template, name, draft, group, recipient);
    GroupIsShared(db, v, template, name, draft, group, recipient);
  }

  /** Two ids that are not drawn yet. */
  ghost predicate NewIds(h: seq<Tx>, draft: Uuid, group: Uuid) {
    draft !in Registry(h) && group !in Registry(h) && draft != group
  }

  lemma {:induction false} SharingCommits(
    sha: Sha512, actions: seq<Action>, v: Uuid, template: Uuid, recipient: Uuid, draft: Uuid, group: Uuid,
    name: string) returns (run: seq<Action>)
    requires Run(sha, actions) && NewIds(After(sha, actions).history, draft, group)
    ensures Run(sha, run)
    ensures After(sha, run) == After(sha, actions).(
      history := WithSharing(After(sha, actions).history, v, template, recipient, draft, group, name))
    ensures Registry(After(sha, run).history).Keys == Registry(After(sha, actions).history).Keys + {draft} + {group}
    ensures Exec(sha, After(sha, run).history) == AfterSharing(
      sha, Exec(sha, After(sha, actions).history), v, template, recipient, draft, group, name)
  {
    var a := OnGroup(CreateGroupTx(v, draft, GroupData(name, TemplateId(template), true)));
    var b := OnGroup(ConfirmGroupTx(v, draft, group));
    var c := OnGroup(AddRecipientTx(v, group, recipient));
    assert DrawnBy(a) == {draft} && DrawnBy(b) == {group};
    run := ThreeRequestsRun(sha, actions, a, b, c);
  }

  /** Every run can be continued by three requests of v after which a group of v uses the template, whoever
      owns it. */
  lemma {:induction false} SharingRunsOn(
    sha: Sha512, actions: seq<Action>, v: Uuid, template: Uuid, recipient: Uuid, draft: Uuid, group: Uuid,
    name: string) returns (run: seq<Action>)
    requires Run(sha, actions) && Sharable(Exec(sha, After(sha, actions).history), v, template, recipient)
    requires NewIds(After(sha, actions).history, draft, group)
    ensures Run(sha, run)
    ensures After(sha, run) == After(sha, actions).(
      history := WithSharing(After(sha, actions).history, v, template, recipient, draft, group, name))
    ensures Registry(After(sha, run).history).Keys == Registry(After(sha, actions).history).Keys + {draft} + {group}
    ensures Uses(Exec(sha, After(sha, run).history), v, template)
    ensures var db, next := Exec(sha, After(sha, actions).history), Exec(sha, After(sha, run).history);
      && next.templates == db.templates
      && Delivery(group, recipient, db.recipients[recipient].telegramId.value, db.templates[template].messageText.value)
           in Targets(next, v)
  {
    run := SharingCommits(sha, actions, v, template, recipient, draft, group, name);
    NotStoredYet(sha, actions, group);
    NotStoredYet(sha, actions, draft);
    NoMembersYet(sha, After(sha, actions).history, v, recipient, group);
    SharedState(sha, Exec(sha, After(sha, actions).history), v, template, recipient, draft, group, name);
  }

  /** The owner u of the template then gives it another text, and the next batch of v sends something
      else. */
  lemma {:induction false} AnotherUserChangesMyBatch(
    sha: Sha512, actions: seq<Action>, u: Uuid, v: Uuid, template: Uuid, recipient: Uuid, draft: Uuid, group: Uuid,
    name: string, data: TemplateData) returns (shared: seq<Action>, changed: seq<Action>)
    requires Run(sha, actions) && Sharable(Exec(sha, After(sha, actions).history), v, template, recipient)
    requires NewIds(After(sha, actions).history, draft, group)
    requires u != v && OwnsTemplate(Exec(sha, After(sha, actions).history), u, template)
    requires data.messageText != Exec(sha, After(sha, actions).history).templates[template].messageText
    ensures Run(sha, shared) && Run(sha, changed)
    ensures After(sha, shared).history
         == WithSharing(After(sha, actions).history, v, template, recipient, draft, group, name)
    ensures After(sha, changed).history
         == After(sha, shared).history + [OnTemplate(ModifyTemplateTx(u, template, data))]
    ensures Targets(Exec(sha, After(sha, changed).history), v) != Targets(Exec(sha, After(sha, shared).history), v)
  {
    var tx := OnTemplate(ModifyTemplateTx(u, template, data));
    shared := SharingRunsOn(sha, actions, v, template, recipient, draft, group, name);
    changed := RequestRunsOn(sha, shared, tx);
    var db := Exec(sha, After(sha, shared).history);
    CoherentAtTheEnd(sha, shared);
    OthersChangeTargetsExactly(sha, db, tx, u, v);
    assert ChangesText(db, tx, template) && Uses(db, v, template);
  }

  // ----- From the empty store -----

  /** A run of requests from the empty store that ends in this database, with these ids drawn. */
  ghost predicate LeadsTo(sha: Sha512, run: seq<Action>, db: Db, drawn: set<Uuid>) {
    && Run(sha, run)
    && Exec(sha, After(sha, run).history) == db
    && Registry(After(sha, run).history).Keys == drawn
    && After(sha, run).calls == map[]
  }

  lemma LeadsOn(sha: Sha512, actions: seq<Action>, db: Db, drawn: set<Uuid>, tx: Tx) returns (run: seq<Action>)
    requires LeadsTo(sha, actions, db, drawn) && Unconditional(tx) && DrawnBy(tx) !! drawn
    ensures LeadsTo(sha, run, Apply(sha, db, tx).db, drawn + DrawnBy(tx))
  {
    run := RequestRunsOn(sha, actions, tx);
  }

  const TEMPLATE := TemplateRow("t", Some("x"), 1)
  const RECIPIENT := RecipientRow("r", None, None, Some(9), 2)

  function TwoUsers(sha: Sha512): map<Uuid, UserRow> {
    map[1 := UserRow("a", HashPwd(sha, "p", "s"), "s"), 2 := UserRow("b", HashPwd(sha, "q", "s"), "s")]
  }

  /** User 1 has template 3, and user 2 has recipient 4, whose chat 9 is subscribed. */
  function BeforeSharing(sha: Sha512): Db {
    EMPTY_DB.(users := TwoUsers(sha), templates := map[3 := TEMPLATE], recipients := map[4 := RECIPIENT],
              contacts := map[9 := true])
  }

  lemma ExampleIsSharable(sha: Sha512)
    ensures Sharable(BeforeSharing(sha), 2, 3, 4) && OwnsTemplate(BeforeSharing(sha), 1, 3)
  {
  }

  lemma TwoUsersRegister(sha: Sha512) returns (run: seq<Action>)
    ensures LeadsTo(sha, run, EMPTY_DB.(users := TwoUsers(sha)), {1, 2})
  {
    var first := OnUser(CreateUserTx(1, Credentials("a", "p"), "s"));
    var second := OnUser(CreateUserTx(2, Credentials("b", "q"), "s"));
    var one := EMPTY_DB.(users := map[1 := UserRow("a", HashPwd(sha, "p", "s"), "s")]);
    assert Run(sha, []) && After(sha, []) == INITIAL;
    run := LeadsOn(sha, [], EMPTY_DB, {}, first);
    assert Apply(sha, EMPTY_DB, first).db == one;
    run := LeadsOn(sha, run, one, {1}, second);
    assert Apply(sha, one, second).db.users == TwoUsers(sha);
  }

  lemma TemplateIsMade(sha: Sha512) returns (run: seq<Action>)
    ensures LeadsTo(sha, run, EMPTY_DB.(users := TwoUsers(sha), templates := map[3 := TEMPLATE]), {1, 2, 10, 3})
  {
    var create := OnTemplate(CreateTemplateTx(1, 10, TemplateData("t", Some("x"))));
    var confirm := OnTemplate(ConfirmTemplateTx(1, 10, 3));
    var before := EMPTY_DB.(users := TwoUsers(sha));
    run := TwoUsersRegister(sha);
    run := LeadsOn(sha, run, before, {1, 2}, create);
    var drafted := before.(templateDrafts := map[10 := TEMPLATE]);
    assert Apply(sha, before, create).db == drafted;
    run := LeadsOn(sha, run, drafted, {1, 2, 10}, confirm);
    assert Apply(sha, drafted, confirm).db == before.(templates := map[3 := TEMPLATE]);
  }

  lemma RecipientRows(db: Db)
    requires 2 in db.users && db.recipients == map[] && db.recipientDrafts == map[]
    ensures var drafted := db.(recipientDrafts := map[11 := RECIPIENT]);
      && CreateRecipient(db, 2, 11, RecipientData("r", None, None, Some(9))).db == drafted
      && ConfirmRecipient(drafted, 2, 11, 4).db == db.(recipients := map[4 := RECIPIENT])
  {
  }

  /** A recipient of user 2 is created and confirmed. */
  lemma RecipientIsMadeFrom(sha: Sha512, actions: seq<Action>, db: Db, drawn: set<Uuid>) returns (run: seq<Action>)
    requires LeadsTo(sha, actions, db, drawn) && drawn !! {11, 4}
    requires 2 in db.users && db.recipients == map[] && db.recipientDrafts == map[]
    ensures LeadsTo(sha, run, db.(recipients := map[4 := RECIPIENT]), drawn + {11} + {4})
  {
    RecipientRows(db);
    run := LeadsOn(sha, actions, db, drawn,
                   OnRecipient(CreateRecipientTx(2, 11, RecipientData("r", None, None, Some(9)))));
    run := LeadsOn(sha, run, db.(recipientDrafts := map[11 := RECIPIENT]), drawn + {11},
                   OnRecipient(ConfirmRecipientTx(2, 11, 4)));
  }

  lemma RecipientIsMade(sha: Sha512) returns (run: seq<Action>)
    ensures LeadsTo(sha, run, BeforeSharing(sha).(contacts := map[]), {1, 2, 10, 3, 11, 4})
  {
    run := TemplateIsMade(sha);
    run := RecipientIsMadeFrom(
      sha, run, EMPTY_DB.(users := TwoUsers(sha), templates := map[3 := TEMPLATE]), {1, 2, 10, 3});
  }

  lemma RecipientSubscribes(sha: Sha512) returns (run: seq<Action>)
    ensures LeadsTo(sha, run, BeforeSharing(sha), {1, 2, 10, 3, 11, 4})
  {
    var subscribe := OnContact(SubscribeTx(9, false));
    run := RecipientIsMade(sha);
    run := LeadsOn(sha, run, BeforeSharing(sha).(contacts := map[]), {1, 2, 10, 3, 11, 4}, subscribe);
    assert Apply(sha, BeforeSharing(sha).(contacts := map[]), subscribe).db == BeforeSharing(sha);
  }

  /** Such a run exists from the empty store, for every hash function: its last request is one of user 1, and
      the batches of user 2 send something else after it. */
  lemma {:induction false} AnotherUserChangesMyBatchInARun(sha: Sha512)
    returns (shared: seq<Action>, changed: seq<Action>)
    ensures Run(sha, shared) && Run(sha, changed)
    ensures After(sha, changed).history
         == After(sha, shared).history + [OnTemplate(ModifyTemplateTx(1, 3, TemplateData("t", Some("y"))))]
    ensures Targets(Exec(sha, After(sha, changed).history), 2) != Targets(Exec(sha, After(sha, shared).history), 2)
  {
    var before := RecipientSubscribes(sha);
    ExampleIsSharable(sha);
    shared, changed := AnotherUserChangesMyBatch(sha, before, 1, 2, 3, 4, 5, 6, "g", TemplateData("t", Some("y")));
  }
}
