/** Whom a batch reaches: the five-table query of SendBatch and the filter of its loop, against the
    set of deliveries that the service promises. */
module Outreach {
  import opened Prelude
  import opened Tables

  /** One notification to store and one message to send. */
  datatype Delivery = Delivery(group: Uuid, recipient: Uuid, chat: ChatId, text: string)

  /** What a message says: the text of a template, or one of the fixed texts of the bot. */
  datatype Body =
    | TemplateText(text: string)
    | HelpText
    | SubscribedText
    | AlreadySubscribedText
    | UnsubscribedText
    | NotSubscribedText

  datatype Message = Message(chat: ChatId, body: Body)

  function MessageOf(d: Delivery): Message {
    Message(d.chat, TemplateText(d.text))
  }

  // ----- The promise -----

  predicate GroupReaches(db: Db, user: Uuid, group: Uuid) {
    && group in db.groups
    && db.groups[group].master == user
    && db.groups[group].active
    && db.groups[group].template.Some?
    && db.groups[group].template.value in db.templates
    && db.templates[db.groups[group].template.value].messageText.Some?
  }

  predicate Subscribed(db: Db, recipient: Uuid) {
    && recipient in db.recipients
    && db.recipients[recipient].telegramId.Some?
    && db.recipients[recipient].telegramId.value in db.contacts
    && db.contacts[db.recipients[recipient].telegramId.value]
  }

  function DeliveryOf(db: Db, m: Membership): Delivery
    requires m.group in db.groups && db.groups[m.group].template.Some?
    requires db.groups[m.group].template.value in db.templates
    requires db.templates[db.groups[m.group].template.value].messageText.Some?
    requires Subscribed(db, m.recipient)
  {
    Delivery(m.group, m.recipient, db.recipients[m.recipient].telegramId.value,
             db.templates[db.groups[m.group].template.value].messageText.value)
  }

  /** One delivery for each subscribed member of each active group of the user whose template has a text. */
  function Targets(db: Db, user: Uuid): set<Delivery> {
    set m | m in db.memberships && GroupReaches(db, user, m.group) && Subscribed(db, m.recipient) ::
      DeliveryOf(db, m)
  }

  /** A batch of the user promises this text to this chat: column by column, through one membership. */
  predicate Promised(db: Db, user: Uuid, m: Membership, chat: ChatId, text: string) {
    && m in db.memberships && m.group in db.groups && m.recipient in db.recipients
    && db.groups[m.group].master == user
    && db.groups[m.group].active
    && db.groups[m.group].template.Some? && db.groups[m.group].template.value in db.templates
    && db.templates[db.groups[m.group].template.value].messageText == Some(text)
    && db.recipients[m.recipient].telegramId == Some(chat)
    && chat in db.contacts && db.contacts[chat]
  }

  /** The targets are what is promised, no more and no less. */
  lemma TargetIsPromised(db: Db, user: Uuid, d: Delivery)
    ensures d in Targets(db, user) <==> Promised(db, user, Membership(d.recipient, d.group), d.chat, d.text)
  {
    if d in Targets(db, user) {
      var m :| m in db.memberships && GroupReaches(db, user, m.group) && Subscribed(db, m.recipient)
        && d == DeliveryOf(db, m);
      assert m == Membership(d.recipient, d.group);
    }
    if Promised(db, user, Membership(d.recipient, d.group), d.chat, d.text) {
      assert d == DeliveryOf(db, Membership(d.recipient, d.group));
    }
  }

  /** The messages of the first n deliveries. */
  function Prefix(pending: seq<Delivery>, n: nat): seq<Message>
    requires n <= |pending|
  {
    seq(n, i requires 0 <= i < n => MessageOf(pending[i]))
  }

  /** Neither batches nor notifications have a say in whom a batch reaches. */
  lemma TargetsIgnoreBatches(db: Db, next: Db, user: Uuid)
    requires next == db.(batches := next.batches, notifications := next.notifications)
    ensures Targets(next, user) == Targets(db, user)
  {
    forall g
      ensures GroupReaches(next, user, g) == GroupReaches(db, user, g)
      ensures Subscribed(next, g) == Subscribed(db, g)
    {
    }
    forall m | m in db.memberships && GroupReaches(db, user, m.group) && Subscribed(db, m.recipient)
      ensures DeliveryOf(next, m) == DeliveryOf(db, m)
    {
    }
  }

  // ----- The query -----

  /** One combination of rows of the inner joins: the join conditions and the WHERE clause hold for it. */
  datatype JoinKey = JoinKey(group: Uuid, template: Uuid, membership: Membership, recipient: Uuid)

  predicate Joins(db: Db, user: Uuid, k: JoinKey) {
    && k.group in db.groups && k.template in db.templates
    && k.membership in db.memberships && k.recipient in db.recipients
    && db.groups[k.group].template == Some(k.template)
    && k.membership.group == k.group
    && k.membership.recipient == k.recipient
    && db.groups[k.group].master == user
    && db.groups[k.group].active
  }

  function InnerJoin(db: Db, user: Uuid): set<JoinKey> {
    set g, t, m, r | g in db.groups && t in db.templates && m in db.memberships && r in db.recipients
      && Joins(db, user, JoinKey(g, t, m, r)) :: JoinKey(g, t, m, r)
  }

  /** The columns that the loop reads. active is NULL when the left join finds no contact. */
  datatype InfoRow = InfoRow(
    group: Uuid,
    recipient: Uuid,
    telegramId: Option<ChatId>,
    active: Option<bool>,
    messageText: Option<string>)

  function InfoRowOf(db: Db, k: JoinKey): InfoRow
    requires k.recipient in db.recipients && k.template in db.templates
  {
    var chat := db.recipients[k.recipient].telegramId;
    InfoRow(
      k.group,
      k.recipient,
      chat,
      if chat.Some? && chat.value in db.contacts then Some(db.contacts[chat.value]) else None,
      db.templates[k.template].messageText)
  }

  /** A result set of the query: the rows of all join combinations, in an arbitrary order. */
  ghost predicate QueryResult(db: Db, user: Uuid, rows: seq<InfoRow>, keys: seq<JoinKey>) {
    && |rows| == |keys|
    && Enumerates(keys, InnerJoin(db, user))
    && forall i :: 0 <= i < |keys| ==> Joins(db, user, keys[i]) && rows[i] == InfoRowOf(db, keys[i])
  }

  // ----- The filter of the loop -----

  /** The loop skips a row whose contact is absent or inactive, and a row without a text. */
  predicate Wanted(row: InfoRow) {
    row.active == Some(true) && row.messageText.Some?
  }

  /** What the loop delivers for the first rows of a result set. */
  function Deliveries(rows: seq<InfoRow>): seq<Delivery>
    requires forall r :: r in rows && Wanted(r) ==> r.telegramId.Some?
  {
    if rows == [] then []
    else
      var n := |rows| - 1;
      var before := Deliveries(rows[..n]);
      if Wanted(rows[n]) then
        before + [Delivery(rows[n].group, rows[n].recipient, rows[n].telegramId.value, rows[n].messageText.value)]
      else before
  }

  // ----- The query and the filter compute the promise -----

  /** The column read as a non-optional telegram_id is never NULL where the loop reads it. */
  lemma WantedRowsHaveAChat(db: Db, user: Uuid, rows: seq<InfoRow>, keys: seq<JoinKey>)
    requires QueryResult(db, user, rows, keys)
    ensures forall r :: r in rows && Wanted(r) ==> r.telegramId.Some?
  {
  }

  /** A join combination is a membership: its other keys are determined. */
  lemma JoinIsMembership(db: Db, user: Uuid, j: JoinKey, k: JoinKey)
    requires Joins(db, user, j) && Joins(db, user, k)
    ensures j.group == k.group && j.recipient == k.recipient ==> j == k
  {
  }

  lemma {:induction false} DeliveriesFromRows(rows: seq<InfoRow>, d: Delivery)
    requires forall r :: r in rows && Wanted(r) ==> r.telegramId.Some?
    ensures d in Deliveries(rows) <==>
      exists i :: 0 <= i < |rows| && Wanted(rows[i])
        && d == Delivery(rows[i].group, rows[i].recipient, rows[i].telegramId.value, rows[i].messageText.value)
  {
    if rows != [] {
      DeliveriesFromRows(rows[..|rows| - 1], d);
    }
  }

  lemma {:induction false} DeliveriesAreDistinct(rows: seq<InfoRow>)
    requires forall r :: r in rows && Wanted(r) ==> r.telegramId.Some?
    requires forall i, j :: 0 <= i < j < |rows| ==>
      rows[i].group != rows[j].group || rows[i].recipient != rows[j].recipient
    ensures Distinct(Deliveries(rows))
  {
    if rows != [] {
      var n := |rows| - 1;
      DeliveriesAreDistinct(rows[..n]);
      if Wanted(rows[n]) {
        DeliveriesFromRows(rows[..n],
          Delivery(rows[n].group, rows[n].recipient, rows[n].telegramId.value, rows[n].messageText.value));
      }
    }
  }

  lemma TargetIsDelivered(db: Db, user: Uuid, rows: seq<InfoRow>, keys: seq<JoinKey>, m: Membership)
    requires QueryResult(db, user, rows, keys)
    requires forall r :: r in rows && Wanted(r) ==> r.telegramId.Some?
    requires m in db.memberships && GroupReaches(db, user, m.group) && Subscribed(db, m.recipient)
    ensures DeliveryOf(db, m) in Deliveries(rows)
  {
    var k := JoinKey(m.group, db.groups[m.group].template.value, m, m.recipient);
    assert k in InnerJoin(db, user);
    var i :| 0 <= i < |keys| && keys[i] == k;
    DeliveriesFromRows(rows, DeliveryOf(db, m));
  }

  lemma DeliveredIsTarget(db: Db, user: Uuid, rows: seq<InfoRow>, keys: seq<JoinKey>, d: Delivery)
    requires QueryResult(db, user, rows, keys)
    requires forall r :: r in rows && Wanted(r) ==> r.telegramId.Some?
    requires d in Deliveries(rows)
    ensures d in Targets(db, user)
  {
    DeliveriesFromRows(rows, d);
    var i :| 0 <= i < |rows| && Wanted(rows[i])
      && d == Delivery(rows[i].group, rows[i].recipient, rows[i].telegramId.value, rows[i].messageText.value);
    assert d == DeliveryOf(db, keys[i].membership);
  }

  /** For every row order, the loop delivers to exactly the targets, each once. */
  lemma QueryRefinesTargets(db: Db, user: Uuid, rows: seq<InfoRow>, keys: seq<JoinKey>)
    requires QueryResult(db, user, rows, keys)
    ensures forall r :: r in rows && Wanted(r) ==> r.telegramId.Some?
    ensures Enumerates(Deliveries(rows), Targets(db, user))
  {
    WantedRowsHaveAChat(db, user, rows, keys);
    forall i, j | 0 <= i < j < |rows|
      ensures rows[i].group != rows[j].group || rows[i].recipient != rows[j].recipient
    {
      JoinIsMembership(db, user, keys[i], keys[j]);
    }
    DeliveriesAreDistinct(rows);
    forall d
      ensures d in Deliveries(rows) <==> d in Targets(db, user)
    {
      if d in Deliveries(rows) { DeliveredIsTarget(db, user, rows, keys, d); }
      if d in Targets(db, user) {
        var m :| m in db.memberships && GroupReaches(db, user, m.group) && Subscribed(db, m.recipient)
          && d == DeliveryOf(db, m);
        TargetIsDelivered(db, user, rows, keys, m);
      }
    }
  }

  /** The deliveries of the first rows are the first deliveries. */
  lemma {:induction false} DeliveriesPrefix(rows: seq<InfoRow>, i: nat)
    requires forall r :: r in rows && Wanted(r) ==> r.telegramId.Some?
    requires i <= |rows|
    ensures Deliveries(rows[..i]) <= Deliveries(rows)
    decreases |rows|
  {
    if i < |rows| {
      var before := rows[..|rows| - 1];
      DeliveriesPrefix(before, i);
      assert before[..i] == rows[..i];
    } else {
      assert rows[..i] == rows;
    }
  }

  /** One more row is skipped or gives the next delivery. */
  lemma NextDelivery(rows: seq<InfoRow>, i: nat)
    requires forall r :: r in rows && Wanted(r) ==> r.telegramId.Some?
    requires i < |rows|
    ensures Deliveries(rows[..i + 1]) == Deliveries(rows[..i]) +
      if Wanted(rows[i])
      then [Delivery(rows[i].group, rows[i].recipient, rows[i].telegramId.value, rows[i].messageText.value)] else []
  {
    assert rows[..i + 1][..i] == rows[..i];
  }
}
