/** Recipients and recipient drafts: each method is one transaction on the cluster. */
module RecipientManagement {
  import opened Prelude
  import opened Tables
  import opened Cascade
  import opened Deletions
  import opened Requests
  import opened RequestEffects
  import opened Storage

  class RecipientManager {
    const cluster: Cluster

    constructor (cluster: Cluster)
      ensures this.cluster == cluster
    {
      this.cluster := cluster;
    }

    method Create(user: Uuid, id: Uuid, data: RecipientData) returns (r: Result<Reply>)
      modifies cluster
      ensures Outcome(cluster.db, r) == CreateRecipient(old(cluster.db), user, id, data)
      ensures r.Ok? ==>
        && id in cluster.db.recipientDrafts && RecipientColumns(cluster.db.recipientDrafts[id], data, user)
        && r == Ok(OneRecipient(id, cluster.db.recipientDrafts[id]))
    {
      CreatedRecipient(cluster.db, user, id, data);
      var transaction := new Transaction.Begin(cluster);
      var row := RecipientRowOf(data, user);
      var failure := transaction.Execute(InsertRecipientDraft(transaction.work, id, row));
      if failure.Some? {
        return Err(failure.value);
      }
      transaction.Commit();
      return Ok(OneRecipient(id, row));
    }

    method ConfirmCreation(user: Uuid, draft: Uuid, id: Uuid) returns (r: Result<Reply>)
      modifies cluster
      ensures Outcome(cluster.db, r) == ConfirmRecipient(old(cluster.db), user, draft, id)
    {
      var transaction := new Transaction.Begin(cluster);
      if !OwnsRecipientDraft(transaction.work, user, draft) {
        return Err(DraftNotFound);
      }
      var row := transaction.work.recipientDrafts[draft];
      var failure := transaction.Execute(InsertRecipient(transaction.work, id, row));
      if failure.Some? {
        return Err(failure.value);
      }
      var drafts := transaction.work.recipientDrafts - {draft};
      var _ := transaction.Execute(Ok(transaction.work.(recipientDrafts := drafts)));
      transaction.Commit();
      return Ok(OneRecipient(id, row));
    }

    method ModifyRecipient(user: Uuid, recipient: Uuid, data: RecipientData) returns (r: Result<Reply>)
      modifies cluster
      ensures Outcome(cluster.db, r) == Requests.ModifyRecipient(old(cluster.db), user, recipient, data)
      ensures r.Ok? ==>
        && recipient in cluster.db.recipients && RecipientColumns(cluster.db.recipients[recipient], data, user)
        && r == Ok(OneRecipient(recipient, cluster.db.recipients[recipient]))
    {
      ModifiedRecipient(cluster.db, user, recipient, data);
      var transaction := new Transaction.Begin(cluster);
      if !OwnsRecipient(transaction.work, user, recipient) {
        return Err(RecipientNotFound);
      }
      var row := transaction.work.recipients[recipient].(
        name := data.name, email := data.email, phoneNumber := data.phoneNumber, telegramId := data.telegramId);
      var recipients := transaction.work.recipients[recipient := row];
      var _ := transaction.Execute(Ok(transaction.work.(recipients := recipients)));
      transaction.Commit();
      return Ok(OneRecipient(recipient, row));
    }

    method DeleteRecipient(user: Uuid, recipient: Uuid) returns (r: Result<Reply>)
      modifies cluster
      ensures Outcome(cluster.db, r) == Requests.DeleteRecipient(old(cluster.db), user, recipient)
      ensures cluster.db == if r == Ok(Done) then WithoutRecipient(old(cluster.db), recipient) else old(cluster.db)
    {
      DeletedRecipient(cluster.db, user, recipient);
      var transaction := new Transaction.Begin(cluster);
      if !OwnsRecipient(transaction.work, user, recipient) {
        return Err(RecipientNotFound);
      }
      var rest := RunCascade(transaction.work, {Row(Recipients, recipient)});
      var _ := transaction.Execute(Ok(rest));
      transaction.Commit();
      return Ok(Done);
    }
  }
}
