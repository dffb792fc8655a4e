/** Small building blocks shared by every component of the model. */
module Prelude {

  datatype Option<+T> = None | Some(value: T)

  /** The exceptions that leave a manager, one constructor for each. */
  datatype Error =
    | UserAlreadyExists
    | UserNotFound
    | IncorrectPwd
    | DraftNotFound
    | TemplateNotFound
    | RecipientNotFound
    | GroupNotFound
    | RecipientAlreadyAdded
    | RecipientNotAdded
    | IncorrectTemplateId
    | NotificationNotFound
    | BatchNotFound
    | UniqueViolation       // raised by a primary key or by the unique user name
    | ForeignKeyViolation
    | BadOptionalAccess     // std::optional::value() of an empty optional
    | NullConversion        // a NULL column converted to a non-optional type
    | MessageNotDelivered   // the Telegram request failed
    | TransactionAborted    // a statement of this transaction has failed before

  datatype Result<+T> = Ok(value: T) | Err(error: Error)

  /** No element occurs twice. */
  ghost predicate Distinct<T(!new)>(s: seq<T>) {
    forall i, j :: 0 <= i < j < |s| ==> s[i] != s[j]
  }

  /** The sequence lists the elements of the set, each exactly once, in some order. */
  ghost predicate Enumerates<T(!new)>(s: seq<T>, all: set<T>) {
    && Distinct(s)
    && (forall x :: x in s <==> x in all)
  }

  lemma OneElement<T(!new)>(s: seq<T>, x: T)
    requires Enumerates(s, {x})
    ensures s == [x]
  {
    assert x in s;
    forall i | 0 <= i < |s|
      ensures s[i] == x
    {
      assert s[i] in s;
      assert s[i] in {x};
    }
    assert s[0] == s[|s| - 1];
  }

  /** A query result in an arbitrary row order. */
  method Scan<T(==, !new)>(all: set<T>) returns (s: seq<T>)
    ensures Enumerates(s, all)
  {
    s := [];
    var todo := all;
    while todo != {}
      invariant todo <= all
      invariant Enumerates(s, all - todo)
    {
      var x :| x in todo;
      s := s + [x];
      todo := todo - {x};
    }
  }
}
