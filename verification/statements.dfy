/** The statements the transaction layer sends to the one shared connection,
    and the SQL text each of them is sent as. */
module Statements {

  datatype Stmt =
    | Begin
    | Commit
    | Rollback
    | Savepoint(name: string)
    | Release(name: string)
    | RollbackTo(name: string)
    /** any other query caller code sends through a handle (it reaches the
        client), with its bound parameters */
    | Data(sql: string, args: seq<int>)

  /** True for the six statements the transaction layer itself issues. */
  predicate IsControl(s: Stmt) {
    !s.Data?
  }

  /** The literal text of each statement, as the template strings build it
      (a data query is sent with its parameters beside the text). */
  function Sql(s: Stmt): string {
    match s
    case Begin => "BEGIN"
    case Commit => "COMMIT"
    case Rollback => "ROLLBACK"
    case Savepoint(n) => "SAVEPOINT " + n
    case Release(n) => "RELEASE SAVEPOINT " + n
    case RollbackTo(n) => "ROLLBACK TO SAVEPOINT " + n
    case Data(q, _) => q
  }

  lemma PrefixedEqual(p: string, a: string, b: string)
    requires p + a == p + b
    ensures a == b
  {
    assert a == (p + a)[|p|..];
    assert b == (p + b)[|p|..];
  }

  /** Control statements are told apart by their text alone, so the
      control statements in the connection's statement stream are recovered
      from their text. (A data query may carry the same text as a control
      statement; this says nothing about those.) */
  lemma SqlInjective(a: Stmt, b: Stmt)
    requires IsControl(a) && IsControl(b)
    requires Sql(a) == Sql(b)
    ensures a == b
  {
    var t := Sql(a);
    match a
    case Begin =>
      assert t[0] == 'B';
    case Commit =>
      assert t[0] == 'C';
    case Rollback =>
      assert |t| == 8 && t[0] == 'R' && t[1] == 'O';
    case Savepoint(n) =>
      assert t[0] == 'S';
      if b.Savepoint? {
        PrefixedEqual("SAVEPOINT ", n, b.name);
      }
    case Release(n) =>
      assert t[0] == 'R' && t[1] == 'E';
      if b.Release? {
        PrefixedEqual("RELEASE SAVEPOINT ", n, b.name);
      }
    case RollbackTo(n) =>
      assert |t| >= 22 && t[0] == 'R' && t[1] == 'O';
      if b.RollbackTo? {
        PrefixedEqual("ROLLBACK TO SAVEPOINT ", n, b.name);
      }
  }
}
