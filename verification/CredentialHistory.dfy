/** Who can log in, as a function of the history of account requests. */
module CredentialHistory {
  import opened Prelude
  import opened Tables
  import opened Cascade
  import opened Deletions
  import opened Requests
  import opened History
  import opened Footprints
  import opened SchemaIntegrity

  type Accounts = map<Uuid, Credentials>

  /** The effect of a committed account request on what users have set. */
  function Accept(accounts: Accounts, tx: UserTx): Accounts {
    match tx
    case CreateUserTx(id, credentials, _) => accounts[id := credentials]
    case ModifyUserTx(user, credentials, _) => accounts[user := credentials]
    case DeleteUserTx(user) => accounts - {user}
  }

  /** The name and the password of each account: those of its last successful Create or ModifyUser. */
  function AccountsAfter(sha: Sha512, h: seq<Tx>): Accounts {
    if h == [] then map[]
    else
      var before, tx := h[..|h| - 1], h[|h| - 1];
      if tx.OnUser? && Apply(sha, Exec(sha, before), tx).reply.Ok? then Accept(AccountsAfter(sha, before), tx.user)
      else AccountsAfter(sha, before)
  }

  /** No two strings have the same hash. */
  ghost predicate CollisionFree(sha: Sha512) {
    forall x, y :: sha(x) == sha(y) ==> x == y
  }

  /** The user table stores the hashes of these accounts. */
  ghost predicate StoresAccounts(sha: Sha512, users: map<Uuid, UserRow>, accounts: Accounts) {
    && users.Keys == accounts.Keys
    && forall u :: u in users ==>
         && users[u].name == accounts[u].name
         && users[u].passwordHash == HashPwd(sha, accounts[u].password, users[u].passwordSalt)
  }

  lemma AccountStep(sha: Sha512, db: Db, tx: UserTx, accounts: Accounts)
    requires StoresAccounts(sha, db.users, accounts)
    ensures var outcome := ApplyUser(sha, db, tx);
      StoresAccounts(sha, outcome.db.users, if outcome.reply.Ok? then Accept(accounts, tx) else accounts)
  {
    if ApplyUser(sha, db, tx).reply.Ok? {
      AcceptedRequest(sha, db, tx);
    } else {
      FailedUserRequest(sha, db, tx);
    }
  }

  /** A committed account request writes or deletes one row. */
  lemma AcceptedRequest(sha: Sha512, db: Db, tx: UserTx)
    requires ApplyUser(sha, db, tx).reply.Ok?
    ensures ApplyUser(sha, db, tx).db.users ==
      match tx
      case CreateUserTx(id, data, salt) =>
        db.users[id := UserRow(data.name, HashPwd(sha, data.password, salt), salt)]
      case ModifyUserTx(user, data, salt) =>
        db.users[user := UserRow(data.name, HashPwd(sha, data.password, salt), salt)]
      case DeleteUserTx(user) => db.users - {user}
  {
    if tx.DeleteUserTx? {
      DoomedByUser(db, tx.user);
      KeepAllBut(db.users, Users, Doomed(db, {Row(Users, tx.user)}), tx.user);
    }
  }

  lemma {:induction false} UsersStoreAccounts(sha: Sha512, h: seq<Tx>)
    ensures StoresAccounts(sha, Exec(sha, h).users, AccountsAfter(sha, h))
    decreases |h|
  {
    if h != [] {
      var before, tx := h[..|h| - 1], h[|h| - 1];
      UsersStoreAccounts(sha, before);
      if tx.OnUser? {
        AccountStep(sha, Exec(sha, before), tx.user, AccountsAfter(sha, before));
      } else {
        OnlyUserRequestsTouchUsers(sha, Exec(sha, before), tx);
      }
    }
  }

  lemma SaltCancels(x: string, y: string, salt: string)
    ensures x + salt == y + salt ==> x == y
  {
    if x + salt == y + salt {
      assert |x| == |y|;
      assert x == (x + salt)[..|x|] && y == (y + salt)[..|y|];
    }
  }

  /** After every history, with a collision-free hash: a login succeeds as u exactly when u holds that
      name and that password, as last set. It does not find the user exactly when nobody holds the name. */
  lemma LoginFollowsHistory(sha: Sha512, h: seq<Tx>, name: string, password: string, u: Uuid)
    requires CollisionFree(sha)
    ensures UniqueNames(Exec(sha, h).users)
    ensures Login(sha, Exec(sha, h), name, password) == Ok(Token(u)) <==>
      u in AccountsAfter(sha, h) && AccountsAfter(sha, h)[u] == Credentials(name, password)
    ensures Login(sha, Exec(sha, h), name, password) == Err(UserNotFound) <==>
      forall v :: v in AccountsAfter(sha, h) ==> AccountsAfter(sha, h)[v].name != name
  {
    var db, accounts := Exec(sha, h), AccountsAfter(sha, h);
    EveryStateHasIntegrity(sha, h);
    UsersStoreAccounts(sha, h);
    if u in db.users {
      SaltCancels(password, accounts[u].password, db.users[u].passwordSalt);
    }
  }

  /** Whatever the hash, the credentials last set always log in. */
  lemma OwnCredentialsLogIn(sha: Sha512, h: seq<Tx>, u: Uuid)
    requires u in AccountsAfter(sha, h)
    ensures UniqueNames(Exec(sha, h).users)
    ensures Login(sha, Exec(sha, h), AccountsAfter(sha, h)[u].name, AccountsAfter(sha, h)[u].password) == Ok(Token(u))
  {
    EveryStateHasIntegrity(sha, h);
    UsersStoreAccounts(sha, h);
  }
}
