/** Accounts: each method is one transaction on the cluster. */
module UserManagement {
  import opened Prelude
  import opened Tables
  import opened Cascade
  import opened Requests
  import opened RequestEffects
  import opened Storage

  class UserManager {
    const cluster: Cluster
    const sha: Sha512

    constructor (cluster: Cluster, sha: Sha512)
      ensures this.cluster == cluster && this.sha == sha
    {
      this.cluster := cluster;
      this.sha := sha;
    }

    method Create(id: Uuid, data: Credentials, salt: string) returns (r: Result<Reply>)
      modifies cluster
      ensures Outcome(cluster.db, r) == CreateUser(sha, old(cluster.db), id, data, salt)
      ensures r.Ok? ==>
        && r == Ok(Token(id)) && id in cluster.db.users
        && cluster.db.users[id] == UserRow(data.name, sha(data.password + salt), salt)
    {
      CreatedUser(sha, cluster.db, id, data, salt);
      var transaction := new Transaction.Begin(cluster);
      var hash := HashPwd(sha, data.password, salt);
      if NameTaken(transaction.work, data.name) {
        return Err(UserAlreadyExists);
      }
      var failure := transaction.Execute(InsertUser(transaction.work, id, UserRow(data.name, hash, salt)));
      if failure.Some? {
        return Err(failure.value);
      }
      transaction.Commit();
      return Ok(Token(id));
    }

    method Login(name: string, password: string) returns (r: Result<Reply>)
      requires UniqueNames(cluster.db.users)
      ensures r == Requests.Login(sha, cluster.db, name, password)
    {
      var rows: seq<Uuid> := Scan(set u | u in cluster.db.users && cluster.db.users[u].name == name);
      assert NameTaken(cluster.db, name) ==> rows != [] by {
        if NameTaken(cluster.db, name) {
          var u :| u in cluster.db.users && cluster.db.users[u].name == name;
          assert u in rows;
        }
      }
      if rows == [] {
        return Err(UserNotFound);
      }
      var user := rows[0];
      assert user in rows;
      var stored := cluster.db.users[user];
      if stored.passwordHash != HashPwd(sha, password, stored.passwordSalt) {
        return Err(IncorrectPwd);
      }
      return Ok(Token(user));
    }

    method ModifyUser(user: Uuid, data: Credentials, salt: string) returns (r: Result<Reply>)
      modifies cluster
      ensures Outcome(cluster.db, r) == Requests.ModifyUser(sha, old(cluster.db), user, data, salt)
      ensures r.Ok? ==>
        && user in cluster.db.users
        && cluster.db.users[user] == UserRow(data.name, sha(data.password + salt), salt)
    {
      ModifiedUser(sha, cluster.db, user, data, salt);
      var transaction := new Transaction.Begin(cluster);
      var hash := HashPwd(sha, data.password, salt);
      if user !in transaction.work.users {
        return Err(UserNotFound);
      }
      var failure := transaction.Execute(UpdateUser(transaction.work, user, UserRow(data.name, hash, salt)));
      if failure.Some? {
        return Err(failure.value);
      }
      transaction.Commit();
      return Ok(Done);
    }

    method DeleteUser(user: Uuid) returns (r: Result<Reply>)
      modifies cluster
      ensures Outcome(cluster.db, r) == Requests.DeleteUser(old(cluster.db), user)
    {
      var transaction := new Transaction.Begin(cluster);
      if user !in transaction.work.users {
        return Err(UserNotFound);
      }
      var rest := RunCascade(transaction.work, {Row(Users, user)});
      var _ := transaction.Execute(Ok(rest));
      transaction.Commit();
      return Ok(Done);
    }
  }
}
