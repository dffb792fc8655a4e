/** A database cluster and the transactions that managers open on it. */
module Storage {
  import opened Prelude
  import opened Tables

  class Cluster {
    /** The committed state. */
    var db: Db

    constructor ()
      ensures db == EMPTY_DB
    {
      db := EMPTY_DB;
    }
  }

  /** A transaction works on a copy. A transaction that is dropped leaves no trace, and one in which a
      statement has failed can only be rolled back. */
  class Transaction {
    const cluster: Cluster
    var work: Db
    var aborted: bool

    constructor Begin(cluster: Cluster)
      ensures this.cluster == cluster && work == cluster.db && !aborted
    {
      this.cluster := cluster;
      work := cluster.db;
      aborted := false;
    }

    /** Runs a statement, given as the copy it leads to or the constraint it violates. A violation aborts
        the transaction: no later statement runs. */
    method Execute(statement: Result<Db>) returns (failure: Option<Error>)
      modifies this
      ensures old(aborted) ==> failure == Some(TransactionAborted) && work == old(work) && aborted
      ensures !old(aborted) && statement.Ok? ==> failure == None && work == statement.value && !aborted
      ensures !old(aborted) && statement.Err? ==> failure == Some(statement.error) && work == old(work) && aborted
    {
      if aborted {
        return Some(TransactionAborted);
      }
      match statement
      case Ok(next) =>
        work := next;
        failure := None;
      case Err(e) =>
        aborted := true;
        failure := Some(e);
    }

    /** The commit of an aborted transaction rolls it back. */
    method Commit()
      modifies cluster
      ensures cluster.db == if aborted then old(cluster.db) else work
    {
      if !aborted {
        cluster.db := work;
      }
    }

    method Rollback()
      modifies this
      ensures work == cluster.db && !aborted
    {
      work := cluster.db;
      aborted := false;
    }
  }
}
