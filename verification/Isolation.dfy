/** Tenant isolation over every run: as long as only others act, nothing of a user changes. */
module Isolation {
  import opened Tables
  import opened Requests
  import opened History
  import opened Footprints
  import opened SchemaIntegrity
  import opened Identity
  import opened Coherence
  import opened Protocol
  import opened ProtocolSafety
  import opened Tenancy

  /** A notification whose keys exist was committed, so it is part of a coherent version. */
  lemma CommittedIsJustified(sha: Sha512, h: seq<Tx>, k: nat)
    requires Fresh(h) && CoherentVersions(sha, h) && k < |h| && h[k].OnNotification?
    ensures Justified(Version(sha, h, k), h[k].notification)
  {
    var db, tx := Version(sha, h, k), h[k].notification;
    if tx.CreateNotificationTx? && tx.batch in db.batches && tx.member in db.recipients && tx.target in db.groups {
      NewIdIsUnused(sha, h, k, Notifications);
      VersionStep(sha, h, k);
      var next := Version(sha, h, k + 1);
      assert next == CreateNotification(db, tx.newId, Telegram, tx.created, tx.batch, tx.member, tx.target).db;
      assert Grounded(next.notifications[tx.newId], next.recipients, next.groups, next.batches);
    }
  }

  /** The transaction does not run on behalf of v. */
  predicate ByOthers(db: Db, tx: Tx, v: Uuid) {
    tx.OnContact? || !RunsAs(db, tx, v)
  }

  /** The user of a request to a manager other than that of the notifications. */
  function ActorOf(tx: Tx): Uuid
    requires !tx.OnContact? && !tx.OnNotification?
  {
    match tx
    case OnUser(CreateUserTx(id, _, _)) => id
    case OnUser(t) => t.user
    case OnTemplate(t) => t.user
    case OnRecipient(t) => t.user
    case OnGroup(t) => t.user
  }

  lemma OthersInOneStep(sha: Sha512, h: seq<Tx>, k: nat, v: Uuid) returns (u: Uuid)
    requires Fresh(h) && CoherentVersions(sha, h) && k < |h| && ByOthers(Version(sha, h, k), h[k], v)
    ensures var db, next := Version(sha, h, k), Version(sha, h, k + 1);
      && ViewOf(next, v) == ViewOf(db, v)
      && OnlyNulled(db.groups, next.groups, db.templates, next.templates, u, v)
      && OnlyNulled(db.groupDrafts, next.groupDrafts, db.templates, next.templates, u, v)
  {
    var db, tx := Version(sha, h, k), h[k];
    VersionStep(sha, h, k);
    if tx.OnNotification? { CommittedIsJustified(sha, h, k); }
    match tx
    case OnContact(t) =>
      u := v;
      ContactFootprint(db, t);
    case OnNotification(CreateNotificationTx(_, _, batch, _, _)) =>
      u := if batch in db.batches then db.batches[batch].master else v;
      if batch in db.batches { OtherTenantsAreUntouched(sha, db, tx, u, v); }
    case OnNotification(t) =>
      u := t.user;
      OtherTenantsAreUntouched(sha, db, tx, u, v);
    case _ =>
      u := ActorOf(tx);
      OtherTenantsAreUntouched(sha, db, tx, u, v);
  }

  /** What no step changes stays the same. */
  lemma {:induction false} StaysTheSame<T(!new)>(f: nat -> T, j: nat, k: nat)
    requires j <= k && forall i :: j <= i < k ==> f(i + 1) == f(i)
    ensures f(k) == f(j)
    decreases k
  {
    if j < k {
      StaysTheSame(f, j, k - 1);
    }
  }

  lemma OthersKeepView(sha: Sha512, h: seq<Tx>, j: nat, k: nat, v: Uuid)
    requires Fresh(h) && CoherentVersions(sha, h) && j <= k <= |h|
    requires forall i :: j <= i < k ==> ByOthers(Version(sha, h, i), h[i], v)
    ensures ViewOf(Version(sha, h, k), v) == ViewOf(Version(sha, h, j), v)
  {
    var view := (i: nat) => ViewOf(Version(sha, h, if i <= |h| then i else |h|), v);
    forall i | j <= i < k
      ensures view(i + 1) == view(i)
    {
      var _ := OthersInOneStep(sha, h, i, v);
    }
    StaysTheSame(view, j, k);
  }

  /** Every group of v is still there, with its template as long as that is stored, and otherwise none. */
  ghost predicate TemplatesFollow(
    start: map<Uuid, GroupRow>, groups: map<Uuid, GroupRow>, templates: map<Uuid, TemplateRow>, v: Uuid)
  {
    forall g :: GroupOf(start, g, v) ==>
      GroupOf(groups, g, v) && groups[g].template == Remaining(templates, start[g].template)
  }

  lemma TemplatesFollowOneStep(
    start: map<Uuid, GroupRow>, groups: map<Uuid, GroupRow>, next: map<Uuid, GroupRow>,
    templates: map<Uuid, TemplateRow>, nextTemplates: map<Uuid, TemplateRow>, users: map<Uuid, UserRow>,
    u: Uuid, v: Uuid)
    requires TemplatesFollow(start, groups, templates, v)
    requires OnlyNulled(groups, next, templates, nextTemplates, u, v) && GroupKeys(next, users, nextTemplates)
    requires forall g :: GroupOf(start, g, v) && start[g].template.Some? && start[g].template.value !in templates ==>
      start[g].template.value !in nextTemplates
    ensures TemplatesFollow(start, next, nextTemplates, v)
  {
    forall g | GroupOf(start, g, v)
      ensures GroupOf(next, g, v) && next[g].template == Remaining(nextTemplates, start[g].template)
    {
      assert GroupOf(groups, g, v);
      assert GroupReferences(next[g], users, nextTemplates);
    }
  }

  /** A template that is gone from version k, though a group of version j had it, does not come back. */
  lemma GoneTemplatesStayGone(sha: Sha512, h: seq<Tx>, j: nat, k: nat, groups: map<Uuid, GroupRow>, v: Uuid)
    requires Fresh(h) && j <= k < |h|
    requires GroupKeys(groups, Version(sha, h, j).users, Version(sha, h, j).templates)
    ensures forall g ::
      (GroupOf(groups, g, v) && groups[g].template.Some?
        && groups[g].template.value !in Version(sha, h, k).templates)
      ==> groups[g].template.value !in Version(sha, h, k + 1).templates
  {
    forall g | GroupOf(groups, g, v) && groups[g].template.Some?
      && groups[g].template.value !in Version(sha, h, k).templates
      ensures groups[g].template.value !in Version(sha, h, k + 1).templates
    {
      var t := groups[g].template.value;
      assert GroupReferences(groups[g], Version(sha, h, j).users, Version(sha, h, j).templates);
      StoredIsRegistered(sha, h, j, Templates, t);
      NoReturnInOneStep(sha, h, j, k, Templates, t);
      assert t !in Ids(Version(sha, h, k + 1), Templates);
    }
  }

  /** The groups and the group drafts of v, with their templates, from version j to version k. */
  ghost predicate GroupsFollow(start: Db, db: Db, v: Uuid) {
    && TemplatesFollow(start.groups, db.groups, db.templates, v)
    && TemplatesFollow(start.groupDrafts, db.groupDrafts, db.templates, v)
  }

  lemma GroupsFollowAtFirst(db: Db, v: Uuid)
    requires ForeignKeys(db)
    ensures GroupsFollow(db, db, v)
  {
    forall g | GroupOf(db.groups, g, v)
      ensures db.groups[g].template == Remaining(db.templates, db.groups[g].template)
    {
      assert GroupReferences(db.groups[g], db.users, db.templates);
    }
    forall g | GroupOf(db.groupDrafts, g, v)
      ensures db.groupDrafts[g].template == Remaining(db.templates, db.groupDrafts[g].template)
    {
      assert GroupReferences(db.groupDrafts[g], db.users, db.templates);
    }
  }

  lemma GroupsFollowOneStep(sha: Sha512, h: seq<Tx>, j: nat, k: nat, v: Uuid)
    requires Fresh(h) && CoherentVersions(sha, h) && j <= k < |h| && ByOthers(Version(sha, h, k), h[k], v)
    requires GroupsFollow(Version(sha, h, j), Version(sha, h, k), v)
    ensures GroupsFollow(Version(sha, h, j), Version(sha, h, k + 1), v)
  {
    var start, db, next := Version(sha, h, j), Version(sha, h, k), Version(sha, h, k + 1);
    EveryStateHasIntegrity(sha, h[..j]);
    EveryStateHasIntegrity(sha, h[..k + 1]);
    var u := OthersInOneStep(sha, h, k, v);
    GoneTemplatesStayGone(sha, h, j, k, start.groups, v);
    GoneTemplatesStayGone(sha, h, j, k, start.groupDrafts, v);
    TemplatesFollowOneStep(
      start.groups, db.groups, next.groups, db.templates, next.templates, next.users, u, v);
    TemplatesFollowOneStep(
      start.groupDrafts, db.groupDrafts, next.groupDrafts, db.templates, next.templates, next.users, u, v);
  }

  lemma GroupsFollowInTheirVersion(sha: Sha512, h: seq<Tx>, j: nat, v: Uuid)
    requires j <= |h|
    ensures GroupsFollow(Version(sha, h, j), Version(sha, h, j), v)
  {
    EveryStateHasIntegrity(sha, h[..j]);
    GroupsFollowAtFirst(Version(sha, h, j), v);
  }

  /** What every step keeps holds to the end. */
  lemma {:induction false} StaysTrue(p: nat -> bool, j: nat, k: nat)
    requires j <= k && p(j) && forall i :: j <= i < k && p(i) ==> p(i + 1)
    ensures p(k)
    decreases k - j
  {
    if j < k {
      StaysTrue(p, j + 1, k);
    }
  }

  lemma OthersLetGroupsFollow(sha: Sha512, h: seq<Tx>, j: nat, k: nat, v: Uuid)
    requires Fresh(h) && CoherentVersions(sha, h) && j <= k <= |h|
    requires forall i :: j <= i < k ==> ByOthers(Version(sha, h, i), h[i], v)
    ensures GroupsFollow(Version(sha, h, j), Version(sha, h, k), v)
  {
    var start := Version(sha, h, j);
    var follows := (i: nat) => i <= |h| && GroupsFollow(start, Version(sha, h, i), v);
    GroupsFollowInTheirVersion(sha, h, j, v);
    forall i | j <= i < k && follows(i)
      ensures follows(i + 1)
    {
      GroupsFollowOneStep(sha, h, j, i, v);
    }
    StaysTrue(follows, j, k);
  }

  /** In every run, while no transaction runs on behalf of v, what belongs to v stays as it is, with
      SendBatch calls of others under way, with cascades, and with bot commands; and each group and group
      draft of v keeps its template if that is still stored, and otherwise has none. */
  lemma TenantsAreIsolated(sha: Sha512, actions: seq<Action>, j: nat, k: nat, v: Uuid)
    requires Run(sha, actions) && j <= k <= |After(sha, actions).history|
    requires forall i :: j <= i < k ==>
      ByOthers(Version(sha, After(sha, actions).history, i), After(sha, actions).history[i], v)
    ensures ViewOf(Version(sha, After(sha, actions).history, k), v)
         == ViewOf(Version(sha, After(sha, actions).history, j), v)
    ensures GroupsFollow(
      Version(sha, After(sha, actions).history, j), Version(sha, After(sha, actions).history, k), v)
  {
    EveryRunKeepsInv(sha, actions);
    OthersKeepView(sha, After(sha, actions).history, j, k, v);
    OthersLetGroupsFollow(sha, After(sha, actions).history, j, k, v);
  }
}
