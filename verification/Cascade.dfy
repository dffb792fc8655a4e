/** The referential actions of the schema: ON DELETE CASCADE and ON DELETE SET NULL
    (section 11.8 of ISO/IEC 9075-2), first as a declarative set of rows and then as the
    row-by-row work list that the database executes. */
module Cascade {
  import opened Prelude
  import opened Tables

  /** The address of a row: its table and its primary key. Contacts hold no key, nothing refers to
      them and nothing deletes them, so they have no address here. */
  datatype Ref = Row(table: Table, id: Uuid) | Member(membership: Membership)

  predicate Stored(db: Db, r: Ref) {
    match r
    case Row(t, i) => i in Ids(db, t)
    case Member(m) => m in db.memberships
  }

  function Rows(db: Db): (rows: set<Ref>)
    ensures forall r :: r in rows <==> Stored(db, r)
  {
    (set t: Table, i | i in Ids(db, t) :: Row(t, i)) + (set m | m in db.memberships :: Member(m))
  }

  /** The stored row child holds an ON DELETE CASCADE key whose value is the primary key of parent. */
  predicate Cascades(db: Db, child: Ref, parent: Ref) {
    match child
    case Member(m) =>
      m in db.memberships && (parent == Row(Recipients, m.recipient) || parent == Row(Groups, m.group))
    case Row(Users, _) => false
    case Row(Notifications, i) =>
      && i in db.notifications
      && (|| parent == Row(Recipients, db.notifications[i].recipient)
          || parent == Row(Groups, db.notifications[i].group))
    case Row(t, i) => i in Ids(db, t) && parent == Row(Users, MasterOf(db, t, i))
  }

  function Dependents(db: Db, parents: set<Ref>): set<Ref> {
    set r | r in Rows(db) && exists p :: p in parents && Cascades(db, r, p)
  }

  /** A set of rows that can disappear together without leaving a cascading reference behind. */
  ghost predicate Closed(db: Db, gone: set<Ref>) {
    forall r, p :: p in gone && Cascades(db, r, p) ==> r in gone
  }

  /** The rows that disappear with the roots. The key graph is three levels deep. */
  function Doomed(db: Db, roots: set<Ref>): set<Ref> {
    var direct := Dependents(db, roots);
    roots + direct + Dependents(db, direct)
  }

  function Keep<R>(table: map<Uuid, R>, t: Table, gone: set<Ref>): map<Uuid, R> {
    map i | i in table && Row(t, i) !in gone :: table[i]
  }

  function SetNull(key: Option<Uuid>, t: Table, gone: set<Ref>): Option<Uuid> {
    if key.Some? && Row(t, key.value) in gone then None else key
  }

  function KeepGroups(table: map<Uuid, GroupRow>, t: Table, gone: set<Ref>): map<Uuid, GroupRow> {
    map i | i in table && Row(t, i) !in gone ::
      table[i].(template := SetNull(table[i].template, Templates, gone))
  }

  function KeepNotifications(table: map<Uuid, NotificationRow>, gone: set<Ref>): map<Uuid, NotificationRow> {
    map i | i in table && Row(Notifications, i) !in gone ::
      table[i].(batch := SetNull(table[i].batch, Batches, gone))
  }

  /** The database without the rows in gone; every ON DELETE SET NULL reference to one of them is NULL. */
  function Erase(db: Db, gone: set<Ref>): Db {
    Db(
      Keep(db.users, Users, gone),
      Keep(db.templates, Templates, gone),
      Keep(db.templateDrafts, TemplateDrafts, gone),
      Keep(db.recipients, Recipients, gone),
      Keep(db.recipientDrafts, RecipientDrafts, gone),
      KeepGroups(db.groups, Groups, gone),
      KeepGroups(db.groupDrafts, GroupDrafts, gone),
      (set m | m in db.memberships && Member(m) !in gone),
      Keep(db.batches, Batches, gone),
      KeepNotifications(db.notifications, gone),
      db.contacts)
  }

  /** Height of a row in the graph of cascading keys. */
  function Level(r: Ref): nat {
    match r
    case Row(Users, _) => 0
    case Row(Notifications, _) => 2
    case Row(_, _) => 1
    case Member(_) => 2
  }

  lemma CascadeClimbsOneLevel(db: Db, child: Ref, parent: Ref)
    requires Cascades(db, child, parent)
    ensures Level(child) == Level(parent) + 1 && Stored(db, child)
  {
  }

  /** Doomed is the least set that contains the roots and is closed under the cascading keys. */
  lemma DoomedIsLeastClosed(db: Db, roots: set<Ref>)
    ensures roots <= Doomed(db, roots)
    ensures Closed(db, Doomed(db, roots))
    ensures forall gone :: roots <= gone && Closed(db, gone) ==> Doomed(db, roots) <= gone
  {
    var direct := Dependents(db, roots);
    SecondLevel(db, roots);
    forall r, p | p in Doomed(db, roots) && Cascades(db, r, p)
      ensures r in Doomed(db, roots)
    {
      CascadeClimbsOneLevel(db, r, p);
    }
  }

  lemma SecondLevel(db: Db, roots: set<Ref>)
    ensures forall r :: r in Dependents(db, Dependents(db, roots)) ==> Level(r) == 2
  {
    var direct := Dependents(db, roots);
    forall r | r in Dependents(db, direct)
      ensures Level(r) == 2
    {
      var q :| q in direct && Cascades(db, r, q);
      CascadeClimbsOneLevel(db, r, q);
      var root :| root in roots && Cascades(db, q, root);
      CascadeClimbsOneLevel(db, q, root);
    }
  }

  lemma KeepTwice<R>(table: map<Uuid, R>, t: Table, first: set<Ref>, second: set<Ref>)
    ensures Keep(Keep(table, t, first), t, second) == Keep(table, t, first + second)
  {
  }

  lemma KeepGroupsTwice(table: map<Uuid, GroupRow>, t: Table, first: set<Ref>, second: set<Ref>)
    ensures KeepGroups(KeepGroups(table, t, first), t, second) == KeepGroups(table, t, first + second)
  {
  }

  lemma KeepNotificationsTwice(table: map<Uuid, NotificationRow>, first: set<Ref>, second: set<Ref>)
    ensures KeepNotifications(KeepNotifications(table, first), second) == KeepNotifications(table, first + second)
  {
  }

  lemma EraseTwice(db: Db, first: set<Ref>, second: set<Ref>)
    ensures Erase(Erase(db, first), second) == Erase(db, first + second)
  {
    KeepTwice(db.users, Users, first, second);
    KeepTwice(db.templates, Templates, first, second);
    KeepTwice(db.templateDrafts, TemplateDrafts, first, second);
    KeepTwice(db.recipients, Recipients, first, second);
    KeepTwice(db.recipientDrafts, RecipientDrafts, first, second);
    KeepGroupsTwice(db.groups, Groups, first, second);
    KeepGroupsTwice(db.groupDrafts, GroupDrafts, first, second);
    KeepTwice(db.batches, Batches, first, second);
    KeepNotificationsTwice(db.notifications, first, second);
    assert Erase(Erase(db, first), second).memberships == Erase(db, first + second).memberships;
  }

  lemma EraseNothing(db: Db)
    ensures Erase(db, {}) == db
  {
    assert Erase(db, {}).users == db.users;
    assert Erase(db, {}).templates == db.templates;
    assert Erase(db, {}).templateDrafts == db.templateDrafts;
    assert Erase(db, {}).recipients == db.recipients;
    assert Erase(db, {}).recipientDrafts == db.recipientDrafts;
    assert Erase(db, {}).groups == db.groups;
    assert Erase(db, {}).groupDrafts == db.groupDrafts;
    assert Erase(db, {}).memberships == db.memberships;
    assert Erase(db, {}).batches == db.batches;
    assert Erase(db, {}).notifications == db.notifications;
  }

  lemma ErasedIds(db: Db, gone: set<Ref>, t: Table)
    ensures forall i :: i in Ids(Erase(db, gone), t) <==> i in Ids(db, t) && Row(t, i) !in gone
    ensures forall i :: i in Ids(Erase(db, gone), t) ==> MasterOf(Erase(db, gone), t, i) == MasterOf(db, t, i)
  {
    match t
    case Users =>
    case Templates =>
    case TemplateDrafts =>
    case Recipients =>
    case RecipientDrafts =>
    case Groups =>
    case GroupDrafts =>
    case Batches =>
    case Notifications =>
  }

  lemma EraseRow(db: Db, gone: set<Ref>, r: Ref)
    ensures Stored(Erase(db, gone), r) <==> Stored(db, r) && r !in gone
    ensures forall p :: r !in gone ==> (Cascades(Erase(db, gone), r, p) <==> Cascades(db, r, p))
  {
    if r.Row? {
      ErasedIds(db, gone, r.table);
    }
  }

  /** What remains after deleting is what was stored and is not gone, with its cascading keys unchanged. */
  lemma EraseRows(db: Db, gone: set<Ref>)
    ensures Rows(Erase(db, gone)) == Rows(db) - gone
    ensures forall r, p :: r !in gone ==> (Cascades(Erase(db, gone), r, p) <==> Cascades(db, r, p))
  {
    forall r
      ensures r in Rows(Erase(db, gone)) <==> r in Rows(db) && r !in gone
      ensures forall p :: r !in gone ==> (Cascades(Erase(db, gone), r, p) <==> Cascades(db, r, p))
    {
      EraseRow(db, gone, r);
    }
  }

  /** The state of the work list: the rows already gone and the rows still to go. */
  ghost predicate Working(db: Db, roots: set<Ref>, gone: set<Ref>, work: set<Ref>) {
    && gone !! work
    && work <= Rows(db)
    && roots <= gone + work <= Doomed(db, roots)
    && (forall r, p :: p in gone && Cascades(db, r, p) ==> r in gone || r in work)
  }

  /** Deletes one row after another, in an arbitrary order. Deleting a row sets the SET NULL
      references to it to NULL and puts the rows that cascade from it on the work list. */
  method RunCascade(db: Db, roots: set<Ref>) returns (result: Db)
    requires roots <= Rows(db)
    ensures result == Erase(db, Doomed(db, roots))
  {
    result := db;
    var work := roots;
    ghost var gone: set<Ref> := {};
    EraseNothing(db);
    DoomedIsLeastClosed(db, roots);
    while work != {}
      invariant result == Erase(db, gone)
      invariant Working(db, roots, gone, work)
      decreases Rows(db) - gone
    {
      var row :| row in work;
      var dependents := Dependents(result, {row});
      WorkListStep(db, roots, gone, work, row);
      EraseTwice(db, gone, {row});
      result := Erase(result, {row});
      work := work + dependents - {row};
      gone := gone + {row};
    }
    WorkListDone(db, roots, gone);
  }

  lemma WorkListStep(db: Db, roots: set<Ref>, gone: set<Ref>, work: set<Ref>, row: Ref)
    requires Working(db, roots, gone, work) && row in work
    ensures Working(db, roots, gone + {row}, work + Dependents(Erase(db, gone), {row}) - {row})
    ensures Rows(db) - (gone + {row}) < Rows(db) - gone
  {
    var dependents := Dependents(Erase(db, gone), {row});
    EraseRows(db, gone);
    DoomedIsLeastClosed(db, roots);
    forall r
      ensures r in dependents <==> r !in gone && Cascades(db, r, row)
    {
      if Cascades(db, r, row) {
        CascadeClimbsOneLevel(db, r, row);
      }
    }
    assert row in Rows(db) - gone && row !in Rows(db) - (gone + {row});
  }

  lemma WorkListDone(db: Db, roots: set<Ref>, gone: set<Ref>)
    requires Working(db, roots, gone, {})
    ensures gone == Doomed(db, roots)
  {
    assert Closed(db, gone);
    DoomedIsLeastClosed(db, roots);
  }
}
