/** The integration tests of src/index.test.ts, replayed against the older
    `TransactionContext` of src/index.ts that they import, with a connection
    that accepts every statement. Each lemma states the exact statement
    stream the test sends. */
module Scenarios {
  import opened Errors
  import opened Statements
  import opened SavepointNames
  import opened Contexts
  import opened Transitions
  import opened Programs
  import opened ScopedMode

  const Drop := "DROP TABLE IF EXISTS "
  const Create := "CREATE TABLE "
  const Insert := "INSERT INTO "

  /** `createTable(h, t)` from the test helpers. */
  function CreateTable(on: nat, t: string): Cmd {
    Seq(CallQuery(on, Drop + t + ";", []), CallQuery(on, Create + t + " (x INT);", []))
  }

  /** `insertRow(h, t, v)` from the test helpers. */
  function InsertRow(on: nat, t: string, v: int): Cmd {
    CallQuery(on, Insert + t + "(x) VALUES ($1)", [v])
  }

  function DropStmt(t: string): Stmt { Data(Drop + t + ";", []) }
  function CreateStmt(t: string): Stmt { Data(Create + t + " (x INT);", []) }
  function InsertStmt(t: string, v: int): Stmt { Data(Insert + t + "(x) VALUES ($1)", [v]) }

  /** `pgtx(client)` on a fresh connection: the handle is environment entry 0. */
  function Start(): (State, Handle) {
    Wrap(Connect(0))
  }

  /** Runs a test body against the legacy implementation. */
  function RunLegacy(c: Cmd, w: World): Step<seq<Handle>> {
    var (st, h) := Start();
    Exec(Legacy, c, [h], st, w)
  }

  /** A data query through any handle is one `Data` statement on the client. */
  lemma QueryStep(v: Variant, env: seq<Handle>, on: nat, sql: string, args: seq<int>, st: State, w: World)
    requires on < |env| && |st.log| !in w.failing
    ensures Exec(v, CallQuery(on, sql, args), env, st, w)
            == Step(st.(log := st.log + [Data(sql, args)]), Ok(env))
  {
  }

  /** `createTable` through any handle: its two statements. */
  lemma CreateTableStep(v: Variant, env: seq<Handle>, on: nat, t: string, st: State, w: World)
    requires on < |env| && Accepts(w, |st.log|, 2)
    ensures Exec(v, CreateTable(on, t), env, st, w)
            == Step(st.(log := st.log + [DropStmt(t), CreateStmt(t)]), Ok(env))
  {
    assert |st.log| !in w.failing && |st.log| + 1 !in w.failing;
    QueryStep(v, env, on, Drop + t + ";", [], st, w);
    var st1 := st.(log := st.log + [DropStmt(t)]);
    QueryStep(v, env, on, Create + t + " (x INT);", [], st1, w);
    assert st1.log + [CreateStmt(t)] == st.log + [DropStmt(t), CreateStmt(t)];
  }

  /** A legacy `transaction` call inside a program: its own result, with
      the environment unchanged on success. */
  lemma LegacyCallStep(on: nat, body: Option<Cmd>, env: seq<Handle>, st: State, w: World)
    requires on < |env|
    ensures var t := LegacyTransaction(env[on], body, env, st, w);
            Exec(Legacy, CallTransaction(on, body), env, st, w)
            == Step(t.state, if t.out.Err? then Err(t.out.error) else Ok(env))
  {
  }

  /** A body that ended normally leaving its savepoint context ACTIVE: the
      legacy `transaction` commits it, which releases the savepoint. */
  lemma ReleaseAtFinish(st: State, k: CtxId, w: World)
    requires k < |st.arena| && st.arena[k].status == Active
    requires st.arena[k].parent.Some? && st.arena[k].savepoint.Some? && |st.arena[k].savepoint.value| >= 3
    requires |st.log| !in w.failing
    ensures FinishLegacy(st, k, None, w) == Step(st.(log := st.log + [Release(st.arena[k].savepoint.value)]), Ok(()))
  {
  }

  /** A legacy `transaction` below a context that has a parent, with the
      body `insertRow(tx, t, v)`: `SAVEPOINT n`, the insert,
      `RELEASE SAVEPOINT n`; the new context stays ACTIVE. */
  lemma SavepointInsertTransaction(h: Handle, env: seq<Handle>, st: State, t: string, v: int, w: World)
    requires h.ctx < |st.arena| && st.arena[h.ctx].parent.Some?
    requires Accepts(w, |st.log|, 3)
    ensures var n := SavepointName(w.uuid(|st.arena|));
            LegacyTransaction(h, Some(InsertRow(|env|, t, v)), env, st, w)
            == Step(State(st.client, st.arena + [Context(Active, Some(h.ctx), Some(n))],
                          st.log + [Savepoint(n), InsertStmt(t, v), Release(n)]),
                    Ok(()))
  {
    var n := SavepointName(w.uuid(|st.arena|));
    var child := Context(Active, Some(h.ctx), Some(n));
    assert |st.log| + 1 !in w.failing && |st.log| + 2 !in w.failing;
    var st1 := State(st.client, st.arena + [child], st.log + [Savepoint(n)]);
    var env' := env + [HandleOn(st, |st.arena|)];
    var st2 := st1.(log := st1.log + [InsertStmt(t, v)]);
    assert Open(st, h.ctx, w.uuid(|st.arena|), w) == Step(st1, Ok(|st.arena|)) by {
      OpenChild(st, h.ctx, w);
    }
    assert Exec(Legacy, InsertRow(|env|, t, v), env', st1, w) == Step(st2, Ok(env')) by {
      QueryStep(Legacy, env', |env|, Insert + t + "(x) VALUES ($1)", [v], st1, w);
    }
    assert st2.arena[|st.arena|] == child;
    ReleaseAtFinish(st2, |st.arena|, w);
    assert LegacyTransaction(h, Some(InsertRow(|env|, t, v)), env, st, w) == FinishLegacy(st2, |st.arena|, None, w) by {
      LegacyUnfolds(h, InsertRow(|env|, t, v), env, st, w);
    }
    AppendThree(st.log, Savepoint(n), InsertStmt(t, v), Release(n));
  }

  /** The same call made from a program through handle `on`. */
  lemma SavepointInsert(st: State, env: seq<Handle>, on: nat, t: string, v: int, w: World)
    requires on < |env| && env[on].ctx < |st.arena|
    requires st.arena[env[on].ctx].parent.Some?
    requires Accepts(w, |st.log|, 3)
    ensures var n := SavepointName(w.uuid(|st.arena|));
            Exec(Legacy, CallTransaction(on, Some(InsertRow(|env|, t, v))), env, st, w)
            == Step(State(st.client, st.arena + [Context(Active, Some(env[on].ctx), Some(n))],
                          st.log + [Savepoint(n), InsertStmt(t, v), Release(n)]),
                    Ok(env))
  {
    SavepointInsertTransaction(env[on], env, st, t, v, w);
    LegacyCallStep(on, Some(InsertRow(|env|, t, v)), env, st, w);
  }

  /** Appending one statement at a time builds the same log as appending
      the three at once. */
  lemma AppendThree(l: seq<Stmt>, a: Stmt, b: Stmt, c: Stmt)
    ensures l + [a] + [b] + [c] == l + [a, b, c]
    ensures (l + [a]) + [b, c] == l + [a, b, c]
  {
  }

  lemma AppendThenUpdate<T>(a: seq<T>, x: T, y: T)
    ensures (a + [x])[|a| := y] == a + [y]
  {
  }

  /** The body `insertRow(tx, t, v); tx.rollback()` on the newest context
      `c` of arena `a + [c]`, reached through handle `k`. */
  lemma InsertThenRollbackBody(a: seq<Context>, c: Context, st: State, env: seq<Handle>, k: nat, t: string, v: int, w: World)
    requires st.arena == a + [c] && k < |env| && env[k].ctx == |a|
    requires c.status == Active
    requires Accepts(w, |st.log|, 2)
    ensures var r := Exec(Legacy, Seq(InsertRow(k, t, v), CallRollback(k)), env, st, w);
            r.out.Ok? && r.state == State(st.client, a + [c.(status := Cancelled)],
                                          st.log + [InsertStmt(t, v), RollbackStmt(c)])
  {
    assert |st.log| !in w.failing && |st.log| + 1 !in w.failing;
    QueryStep(Legacy, env, k, Insert + t + "(x) VALUES ($1)", [v], st, w);
    var st1 := st.(log := st.log + [InsertStmt(t, v)]);
    AppendThenUpdate(a, c, c.(status := Cancelled));
    var rb := Transitions.Rollback(st1, |a|, w);
    assert rb.out.Ok? && rb.state == State(st.client, a + [c.(status := Cancelled)], st1.log + [RollbackStmt(c)]);
  }

  /** A legacy `transaction` below a context that has a parent, with the
      body `insertRow(tx, t, v); tx.rollback()`: `SAVEPOINT n`, the insert,
      `ROLLBACK TO SAVEPOINT n`; the new context is CANCELLED, so nothing
      more is sent. */
  lemma SavepointRollbackTransaction(h: Handle, env: seq<Handle>, st: State, t: string, v: int, w: World)
    requires h.ctx < |st.arena| && st.arena[h.ctx].parent.Some?
    requires Accepts(w, |st.log|, 3)
    ensures var n := SavepointName(w.uuid(|st.arena|));
            LegacyTransaction(h, Some(Seq(InsertRow(|env|, t, v), CallRollback(|env|))), env, st, w)
            == Step(State(st.client, st.arena + [Context(Cancelled, Some(h.ctx), Some(n))],
                          st.log + [Savepoint(n), InsertStmt(t, v), RollbackTo(n)]),
                    Ok(()))
  {
    var n := SavepointName(w.uuid(|st.arena|));
    var child := Context(Active, Some(h.ctx), Some(n));
    assert |st.log| + 1 !in w.failing && |st.log| + 2 !in w.failing;
    var st1 := State(st.client, st.arena + [child], st.log + [Savepoint(n)]);
    var env' := env + [HandleOn(st, |st.arena|)];
    var body := Seq(InsertRow(|env|, t, v), CallRollback(|env|));
    var st3 := State(st.client, st.arena + [child.(status := Cancelled)],
                     st.log + [Savepoint(n), InsertStmt(t, v), RollbackTo(n)]);
    assert Open(st, h.ctx, w.uuid(|st.arena|), w) == Step(st1, Ok(|st.arena|)) by {
      OpenChild(st, h.ctx, w);
    }
    var rb := Exec(Legacy, body, env', st1, w);
    assert rb.out.Ok? && rb.state == st3 by {
      assert HasSavepoint(child);
      InsertThenRollbackBody(st.arena, child, st1, env', |env|, t, v, w);
      AppendThree(st.log, Savepoint(n), InsertStmt(t, v), RollbackTo(n));
    }
    assert FinishLegacy(st3, |st.arena|, None, w) == Step(st3, Ok(()));
    assert LegacyTransaction(h, Some(body), env, st, w) == FinishLegacy(st3, |st.arena|, None, w) by {
      LegacyUnfolds(h, body, env, st, w);
    }
  }

  /** The same call made from a program through handle `on`. */
  lemma SavepointInsertRollback(st: State, env: seq<Handle>, on: nat, t: string, v: int, w: World)
    requires on < |env| && env[on].ctx < |st.arena|
    requires st.arena[env[on].ctx].parent.Some?
    requires Accepts(w, |st.log|, 3)
    ensures var n := SavepointName(w.uuid(|st.arena|));
            Exec(Legacy, CallTransaction(on, Some(Seq(InsertRow(|env|, t, v), CallRollback(|env|)))), env, st, w)
            == Step(State(st.client, st.arena + [Context(Cancelled, Some(env[on].ctx), Some(n))],
                          st.log + [Savepoint(n), InsertStmt(t, v), RollbackTo(n)]),
                    Ok(env))
  {
    SavepointRollbackTransaction(env[on], env, st, t, v, w);
    LegacyCallStep(on, Some(Seq(InsertRow(|env|, t, v), CallRollback(|env|))), env, st, w);
  }

  /** Running `first` then `next` when `first` ends normally. */
  lemma SeqStep(v: Variant, first: Cmd, next: Cmd, env: seq<Handle>, st: State, w: World,
                env1: seq<Handle>, st1: State)
    requires Exec(v, first, env, st, w) == Step(st1, Ok(env1))
    ensures Exec(v, Seq(first, next), env, st, w) == Exec(v, next, env1, st1, w)
  {
  }

  /** The state right after the test's outer `transaction` sent `BEGIN`:
      the wrapper (context 0) and its ACTIVE child (context 1). */
  function Opened(): State {
    State(0, [Context(Active, None, None), Context(Active, Some(0), None)], [Begin])
  }

  /** The handles the outer body sees: the wrapper's and its own. */
  function OuterEnv(): seq<Handle> {
    [Handle(0, 0), Handle(0, 1)]
  }

  /** The test's outer `transaction` on the wrapper: `BEGIN`, the body, and,
      when the body ends normally with context 1 still ACTIVE, `COMMIT`. */
  lemma OuterTransaction(b: Cmd, w: World, stB: State)
    requires 0 !in w.failing && |stB.log| !in w.failing
    requires Exec(Legacy, b, OuterEnv(), Opened(), w) == Step(stB, Ok(OuterEnv()))
    requires |stB.arena| > 1 && stB.arena[1] == Context(Active, Some(0), None)
    ensures var r := RunLegacy(CallTransaction(0, Some(b)), w);
            r.out.Ok? && r.state.log == stB.log + [Stmt.Commit]
  {
    var (st0, h0) := Start();
    assert st0 == State(0, [Context(Active, None, None)], []) && h0 == Handle(0, 0);
    assert Open(st0, 0, w.uuid(1), w) == Step(Opened(), Ok(1));
    assert [h0] + [HandleOn(st0, 1)] == OuterEnv();
    var f := FinishLegacy(stB, 1, None, w);
    assert f.out.Ok? && f.state.log == stB.log + [Stmt.Commit];
    assert LegacyTransaction(h0, Some(b), [h0], st0, w) == f by {
      LegacyUnfolds(h0, b, [h0], st0, w);
    }
    LegacyCallStep(0, Some(b), [h0], st0, w);
  }

  /** "simple rollback": the table is made outside any transaction, then
      `BEGIN`, the insert, and `ROLLBACK`; the child is CANCELLED so no
      commit follows. */
  lemma SimpleRollback(w: World, tb: string)
    requires w.failing == {}
    ensures var r := RunLegacy(
              Seq(CreateTable(0, tb),
                  CallTransaction(0, Some(Seq(InsertRow(1, tb, 1), CallRollback(1))))), w);
            r.out.Ok? && r.state.log ==
              [DropStmt(tb), CreateStmt(tb), Begin, InsertStmt(tb, 1), Stmt.Rollback]
  {
    var (st0, h0) := Start();
    assert st0 == State(0, [Context(Active, None, None)], []) && h0 == Handle(0, 0);
    var wrapper, c := Context(Active, None, None), Context(Active, Some(0), None);
    var body := Seq(InsertRow(1, tb, 1), CallRollback(1));
    var s1 := st0.(log := [DropStmt(tb), CreateStmt(tb)]);
    var s2 := State(0, [wrapper, c], s1.log + [Begin]);
    var s3 := State(0, [wrapper, c.(status := Cancelled)], s2.log + [InsertStmt(tb, 1), Stmt.Rollback]);
    assert Exec(Legacy, CreateTable(0, tb), [h0], st0, w) == Step(s1, Ok([h0])) by {
      CreateTableStep(Legacy, [h0], 0, tb, st0, w);
    }
    assert Open(s1, 0, w.uuid(1), w) == Step(s2, Ok(1));
    assert Exec(Legacy, body, [h0, Handle(0, 1)], s2, w).state == s3 by {
      InsertThenRollbackBody([wrapper], c, s2, [h0, Handle(0, 1)], 1, tb, 1, w);
    }
    assert LegacyTransaction(h0, Some(body), [h0], s1, w) == Step(s3, Ok(())) by {
      InsertThenRollbackBody([wrapper], c, s2, [h0, Handle(0, 1)], 1, tb, 1, w);
      assert [h0] + [HandleOn(s1, 1)] == [h0, Handle(0, 1)];
      LegacyUnfolds(h0, body, [h0], s1, w);
    }
    LegacyCallStep(0, Some(body), [h0], s1, w);
    SeqStep(Legacy, CreateTable(0, tb), CallTransaction(0, Some(body)), [h0], st0, w, [h0], s1);
  }

  /** "single level non explicit commit". */
  lemma SingleLevelCommit(w: World, tb: string)
    requires w.failing == {}
    ensures var r := RunLegacy(
              CallTransaction(0, Some(Seq(CreateTable(1, tb), InsertRow(1, tb, 1)))), w);
            r.out.Ok? && r.state.log ==
              [Begin, DropStmt(tb), CreateStmt(tb), InsertStmt(tb, 1), Stmt.Commit]
  {
    var env := OuterEnv();
    var body := Seq(CreateTable(1, tb), InsertRow(1, tb, 1));
    var s1 := Opened();
    var s2 := s1.(log := s1.log + [DropStmt(tb), CreateStmt(tb)]);
    var s3 := s2.(log := s2.log + [InsertStmt(tb, 1)]);
    assert Exec(Legacy, body, env, s1, w) == Step(s3, Ok(env)) by {
      CreateTableStep(Legacy, env, 1, tb, s1, w);
      QueryStep(Legacy, env, 1, Insert + tb + "(x) VALUES ($1)", [1], s2, w);
      SeqStep(Legacy, CreateTable(1, tb), InsertRow(1, tb, 1), env, s1, w, env, s2);
    }
    OuterTransaction(body, w, s3);
  }

  /** "nested multiple non explicit commits": three savepoints, each released. */
  lemma NestedCommits(w: World, tb: string)
    requires w.failing == {}
    ensures var r := RunLegacy(
              CallTransaction(0, Some(
                Seq(CreateTable(1, tb),
                Seq(CallTransaction(1, Some(InsertRow(2, tb, 1))),
                Seq(CallTransaction(1, Some(InsertRow(2, tb, 2))),
                    CallTransaction(1, Some(InsertRow(2, tb, 3)))))))), w);
            var a, b, c := SavepointName(w.uuid(2)), SavepointName(w.uuid(3)), SavepointName(w.uuid(4));
            r.out.Ok? && r.state.log ==
              [Begin, DropStmt(tb), CreateStmt(tb),
               Savepoint(a), InsertStmt(tb, 1), Release(a),
               Savepoint(b), InsertStmt(tb, 2), Release(b),
               Savepoint(c), InsertStmt(tb, 3), Release(c),
               Stmt.Commit]
  {
    var a, b, c := SavepointName(w.uuid(2)), SavepointName(w.uuid(3)), SavepointName(w.uuid(4));
    var env := OuterEnv();
    var t1, t2, t3 := CallTransaction(1, Some(InsertRow(2, tb, 1))),
                      CallTransaction(1, Some(InsertRow(2, tb, 2))),
                      CallTransaction(1, Some(InsertRow(2, tb, 3)));
    var body := Seq(CreateTable(1, tb), Seq(t1, Seq(t2, t3)));
    var s1 := Opened();
    var s2 := s1.(log := s1.log + [DropStmt(tb), CreateStmt(tb)]);
    var s3 := State(0, s2.arena + [Context(Active, Some(1), Some(a))],
                    s2.log + [Savepoint(a), InsertStmt(tb, 1), Release(a)]);
    var s4 := State(0, s3.arena + [Context(Active, Some(1), Some(b))],
                    s3.log + [Savepoint(b), InsertStmt(tb, 2), Release(b)]);
    var s5 := State(0, s4.arena + [Context(Active, Some(1), Some(c))],
                    s4.log + [Savepoint(c), InsertStmt(tb, 3), Release(c)]);
    assert Exec(Legacy, body, env, s1, w) == Step(s5, Ok(env)) by {
      CreateTableStep(Legacy, env, 1, tb, s1, w);
      SavepointInsert(s2, env, 1, tb, 1, w);
      SavepointInsert(s3, env, 1, tb, 2, w);
      SavepointInsert(s4, env, 1, tb, 3, w);
      SeqStep(Legacy, t2, t3, env, s3, w, env, s4);
      SeqStep(Legacy, t1, Seq(t2, t3), env, s2, w, env, s3);
      SeqStep(Legacy, CreateTable(1, tb), Seq(t1, Seq(t2, t3)), env, s1, w, env, s2);
    }
    assert s5.arena[1] == Context(Active, Some(0), None);
    OuterTransaction(body, w, s5);
  }

  /** "nested rollback": the savepoint is rolled back, the outer level
      still commits. */
  lemma NestedRollback(w: World, tb: string)
    requires w.failing == {}
    ensures var r := RunLegacy(
              CallTransaction(0, Some(
                Seq(CreateTable(1, tb),
                    CallTransaction(1, Some(Seq(InsertRow(2, tb, 1), CallRollback(2))))))), w);
            var a := SavepointName(w.uuid(2));
            r.out.Ok? && r.state.log ==
              [Begin, DropStmt(tb), CreateStmt(tb),
               Savepoint(a), InsertStmt(tb, 1), RollbackTo(a),
               Stmt.Commit]
  {
    var a := SavepointName(w.uuid(2));
    var env := OuterEnv();
    var t1 := CallTransaction(1, Some(Seq(InsertRow(2, tb, 1), CallRollback(2))));
    var body := Seq(CreateTable(1, tb), t1);
    var s1 := Opened();
    var s2 := s1.(log := s1.log + [DropStmt(tb), CreateStmt(tb)]);
    var s3 := State(0, s2.arena + [Context(Cancelled, Some(1), Some(a))],
                    s2.log + [Savepoint(a), InsertStmt(tb, 1), RollbackTo(a)]);
    assert Exec(Legacy, body, env, s1, w) == Step(s3, Ok(env)) by {
      CreateTableStep(Legacy, env, 1, tb, s1, w);
      SavepointInsertRollback(s2, env, 1, tb, 1, w);
      SeqStep(Legacy, CreateTable(1, tb), t1, env, s1, w, env, s2);
    }
    assert s3.arena[1] == Context(Active, Some(0), None);
    OuterTransaction(body, w, s3);
  }

  /** The outer body of "nested rollback with continuation", on the
      state right after `BEGIN`. */
  lemma RollbackThenContinueBody(w: World, tb: string)
    requires w.failing == {}
    ensures var a, b := SavepointName(w.uuid(2)), SavepointName(w.uuid(3));
            Exec(Legacy, Seq(CreateTable(1, tb),
                         Seq(CallTransaction(1, Some(Seq(InsertRow(2, tb, 100), CallRollback(2)))),
                             CallTransaction(1, Some(InsertRow(2, tb, 1))))), OuterEnv(), Opened(), w)
            == Step(State(0, Opened().arena + [Context(Cancelled, Some(1), Some(a)), Context(Active, Some(1), Some(b))],
                          [Begin, DropStmt(tb), CreateStmt(tb),
                           Savepoint(a), InsertStmt(tb, 100), RollbackTo(a),
                           Savepoint(b), InsertStmt(tb, 1), Release(b)]),
                    Ok(OuterEnv()))
  {
    var a, b := SavepointName(w.uuid(2)), SavepointName(w.uuid(3));
    var env := OuterEnv();
    var t1 := CallTransaction(1, Some(Seq(InsertRow(2, tb, 100), CallRollback(2))));
    var t2 := CallTransaction(1, Some(InsertRow(2, tb, 1)));
    var s1 := Opened();
    var s2 := s1.(log := s1.log + [DropStmt(tb), CreateStmt(tb)]);
    var s3 := State(0, s2.arena + [Context(Cancelled, Some(1), Some(a))],
                    s2.log + [Savepoint(a), InsertStmt(tb, 100), RollbackTo(a)]);
    var s4 := State(0, s3.arena + [Context(Active, Some(1), Some(b))],
                    s3.log + [Savepoint(b), InsertStmt(tb, 1), Release(b)]);
    CreateTableStep(Legacy, env, 1, tb, s1, w);
    SavepointInsertRollback(s2, env, 1, tb, 100, w);
    SavepointInsert(s3, env, 1, tb, 1, w);
    SeqStep(Legacy, t1, t2, env, s2, w, env, s3);
    SeqStep(Legacy, CreateTable(1, tb), Seq(t1, t2), env, s1, w, env, s2);
  }

  /** "nested rollback with continuation": SAVEPOINT a, ROLLBACK TO a,
      SAVEPOINT b, RELEASE b, COMMIT after the BEGIN. */
  lemma NestedRollbackThenContinue(w: World, tb: string)
    requires w.failing == {}
    ensures var r := RunLegacy(
              CallTransaction(0, Some(
                Seq(CreateTable(1, tb),
                Seq(CallTransaction(1, Some(Seq(InsertRow(2, tb, 100), CallRollback(2)))),
                    CallTransaction(1, Some(InsertRow(2, tb, 1))))))), w);
            var a, b := SavepointName(w.uuid(2)), SavepointName(w.uuid(3));
            r.out.Ok? && r.state.log ==
              [Begin, DropStmt(tb), CreateStmt(tb),
               Savepoint(a), InsertStmt(tb, 100), RollbackTo(a),
               Savepoint(b), InsertStmt(tb, 1), Release(b),
               Stmt.Commit]
  {
    var a, b := SavepointName(w.uuid(2)), SavepointName(w.uuid(3));
    var s4 := State(0, Opened().arena + [Context(Cancelled, Some(1), Some(a)), Context(Active, Some(1), Some(b))],
                    [Begin, DropStmt(tb), CreateStmt(tb),
                     Savepoint(a), InsertStmt(tb, 100), RollbackTo(a),
                     Savepoint(b), InsertStmt(tb, 1), Release(b)]);
    RollbackThenContinueBody(w, tb);
    assert s4.arena[1] == Context(Active, Some(0), None);
    OuterTransaction(Seq(CreateTable(1, tb),
                         Seq(CallTransaction(1, Some(Seq(InsertRow(2, tb, 100), CallRollback(2)))),
                             CallTransaction(1, Some(InsertRow(2, tb, 1))))), w, s4);
  }
}
