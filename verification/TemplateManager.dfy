/** Templates and template drafts: each method is one transaction on the cluster. */
module TemplateManagement {
  import opened Prelude
  import opened Tables
  import opened Cascade
  import opened Deletions
  import opened Requests
  import opened RequestEffects
  import opened Storage

  class TemplateManager {
    const cluster: Cluster

    constructor (cluster: Cluster)
      ensures this.cluster == cluster
    {
      this.cluster := cluster;
    }

    method Create(user: Uuid, id: Uuid, data: TemplateData) returns (r: Result<Reply>)
      modifies cluster
      ensures Outcome(cluster.db, r) == CreateTemplate(old(cluster.db), user, id, data)
      ensures r.Ok? ==>
        && id in cluster.db.templateDrafts && TemplateColumns(cluster.db.templateDrafts[id], data, user)
        && r == Ok(OneTemplate(id, cluster.db.templateDrafts[id]))
    {
      CreatedTemplate(cluster.db, user, id, data);
      var transaction := new Transaction.Begin(cluster);
      var row := TemplateRow(data.name, data.messageText, user);
      var failure := transaction.Execute(InsertTemplateDraft(transaction.work, id, row));
      if failure.Some? {
        return Err(failure.value);
      }
      transaction.Commit();
      return Ok(OneTemplate(id, row));
    }

    method ConfirmCreation(user: Uuid, draft: Uuid, id: Uuid) returns (r: Result<Reply>)
      modifies cluster
      ensures Outcome(cluster.db, r) == ConfirmTemplate(old(cluster.db), user, draft, id)
    {
      var transaction := new Transaction.Begin(cluster);
      if !OwnsTemplateDraft(transaction.work, user, draft) {
        return Err(DraftNotFound);
      }
      var row := transaction.work.templateDrafts[draft];
      var failure := transaction.Execute(InsertTemplate(transaction.work, id, row));
      if failure.Some? {
        return Err(failure.value);
      }
      var _ := transaction.Execute(Ok(DropTemplateDraft(transaction.work, user, draft)));
      transaction.Commit();
      return Ok(OneTemplate(id, row));
    }

    method ModifyTemplate(user: Uuid, template: Uuid, data: TemplateData) returns (r: Result<Reply>)
      modifies cluster
      ensures Outcome(cluster.db, r) == Requests.ModifyTemplate(old(cluster.db), user, template, data)
      ensures r.Ok? ==>
        && template in cluster.db.templates && TemplateColumns(cluster.db.templates[template], data, user)
        && r == Ok(OneTemplate(template, cluster.db.templates[template]))
    {
      ModifiedTemplate(cluster.db, user, template, data);
      var transaction := new Transaction.Begin(cluster);
      if !OwnsTemplate(transaction.work, user, template) {
        return Err(TemplateNotFound);
      }
      var row := transaction.work.templates[template].(name := data.name, messageText := data.messageText);
      var templates := transaction.work.templates[template := row];
      var _ := transaction.Execute(Ok(transaction.work.(templates := templates)));
      transaction.Commit();
      return Ok(OneTemplate(template, row));
    }

    method DeleteTemplate(user: Uuid, template: Uuid) returns (r: Result<Reply>)
      modifies cluster
      ensures Outcome(cluster.db, r) == Requests.DeleteTemplate(old(cluster.db), user, template)
      ensures cluster.db == if r == Ok(Done) then WithoutTemplate(old(cluster.db), template) else old(cluster.db)
    {
      DeletedTemplate(cluster.db, user, template);
      var transaction := new Transaction.Begin(cluster);
      if !OwnsTemplate(transaction.work, user, template) {
        return Err(TemplateNotFound);
      }
      var rest := RunCascade(transaction.work, {Row(Templates, template)});
      var _ := transaction.Execute(Ok(rest));
      transaction.Commit();
      return Ok(Done);
    }
  }
}
