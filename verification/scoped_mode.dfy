/** What `transaction(body)` does around a caller's body, in the current
    `TransactionContext` (scoped mode, with its try/catch) and in the older
    copy of src/index.ts (no try/catch). */
module ScopedMode {
  import opened Errors
  import opened Statements
  import opened SavepointNames
  import opened Contexts
  import opened Transitions
  import opened Programs

  /** An accepted opening statement: the log gains it and the arena gains
      the ACTIVE child. */
  lemma OpenChild(st: State, opener: CtxId, w: World)
    requires opener < |st.arena| && |st.log| !in w.failing
    ensures Open(st, opener, w.uuid(|st.arena|), w)
            == Step(State(st.client, st.arena + [ChildOf(st, opener, w.uuid(|st.arena|))],
                          st.log + [OpenStmt(st, opener, w.uuid(|st.arena|))]),
                    Ok(|st.arena|))
  {
  }

  /** Once its opening statement went through, scoped `transaction` is the
      body on the new child followed by `FinishScoped`. */
  lemma ScopedUnfolds(h: Handle, b: Cmd, env: seq<Handle>, st: State, w: World)
    requires h.ctx < |st.arena| && |st.log| !in w.failing
    ensures var o := Open(st, h.ctx, w.uuid(|st.arena|), w);
            var rb := Exec(Current, b, env + [HandleOn(st, |st.arena|)], o.state, w);
            Transaction(h, Some(b), env, st, w) == FinishScoped(rb.state, h.ctx, |st.arena|, ErrorOf(rb.out), w)
  {
  }

  /** The same for the older copy: the body on the new child, then
      `FinishLegacy`. */
  lemma LegacyUnfolds(h: Handle, b: Cmd, env: seq<Handle>, st: State, w: World)
    requires h.ctx < |st.arena| && |st.log| !in w.failing
    ensures var o := Open(st, h.ctx, w.uuid(|st.arena|), w);
            var rb := Exec(Legacy, b, env + [HandleOn(st, |st.arena|)], o.state, w);
            LegacyTransaction(h, Some(b), env, st, w) == FinishLegacy(rb.state, |st.arena|, ErrorOf(rb.out), w)
  {
  }

  /** A body error in the older copy propagates unchanged and nothing is
      sent after the body's own statements: no rollback, no commit. */
  lemma LegacyBodyErrorPropagates(h: Handle, b: Cmd, env: seq<Handle>, st: State, w: World)
    requires h.ctx < |st.arena| && |st.log| !in w.failing
    ensures var o := Open(st, h.ctx, w.uuid(|st.arena|), w);
            var rb := Exec(Legacy, b, env + [HandleOn(st, |st.arena|)], o.state, w);
            rb.out.Err? ==> LegacyTransaction(h, Some(b), env, st, w) == Step(rb.state, Err(rb.out.error))
  {
    LegacyUnfolds(h, b, env, st, w);
  }

  /** Whatever the body did before it threw: if the child is still ACTIVE
      and its rollback statement is accepted, scoped mode sends exactly the
      child's own rollback statement after the body's statements, cancels
      the child, changes no other context, and rethrows the body's error.
      From a valid state, that statement is the one the child was opened
      for: `ROLLBACK TO SAVEPOINT` of its name below a nested opener,
      `ROLLBACK` directly below the wrapper. */
  lemma {:induction false} ScopedRethrows(h: Handle, b: Cmd, env: seq<Handle>, st: State, w: World)
    requires h.ctx < |st.arena| && |st.log| !in w.failing
    ensures var u := w.uuid(|st.arena|);
            var rb := Exec(Current, b, env + [HandleOn(st, |st.arena|)], Open(st, h.ctx, u, w).state, w);
            var r := Transaction(h, Some(b), env, st, w);
            rb.out.Err? && rb.state.arena[|st.arena|].status == Active
            && |rb.state.log| !in w.failing ==>
              && r.out == Err(rb.out.error)
              && r.state.log == rb.state.log + [RollbackStmt(rb.state.arena[|st.arena|])]
              && OthersUnchanged(rb.state, r.state, |st.arena|)
              && r.state.arena[|st.arena|].status == Cancelled
              && (Valid(st) && EnvValid(st, env) && HandleValid(st, h) ==>
                    RollbackStmt(rb.state.arena[|st.arena|]) == RollbackStmt(ChildOf(st, h.ctx, u)))
  {
    var u := w.uuid(|st.arena|);
    var o := Open(st, h.ctx, u, w);
    var env' := env + [HandleOn(st, |st.arena|)];
    var rb := Exec(Current, b, env', o.state, w);
    ScopedUnfolds(h, b, env, st, w);
    if Valid(st) && EnvValid(st, env) && HandleValid(st, h) {
      OpenChild(st, h.ctx, w);
      OpenKeepsValid(st, h.ctx, u, w);
      EnvValidExtends(st, o.state, env);
      assert EnvValid(o.state, env');
      ExecKeepsValid(Current, b, env', o.state, w);
      assert rb.state.arena[|st.arena|].parent == ChildOf(st, h.ctx, u).parent;
      assert rb.state.arena[|st.arena|].savepoint == ChildOf(st, h.ctx, u).savepoint;
    }
  }

  /** A body that throws at once: scoped mode sends the open statement, then
      the child's rollback statement, and rethrows the body's error. */
  lemma {:induction false} ScopedThrowsAtOnce(h: Handle, reason: string, env: seq<Handle>, st: State, w: World)
    requires h.ctx < |st.arena| && Accepts(w, |st.log|, 2)
    ensures var u := w.uuid(|st.arena|);
            var r := Transaction(h, Some(Throw(reason)), env, st, w);
            && r.out == Err(Thrown(reason))
            && r.state.log == st.log + [OpenStmt(st, h.ctx, u), RollbackStmt(ChildOf(st, h.ctx, u))]
            && r.state.arena == st.arena + [ChildOf(st, h.ctx, u).(status := Cancelled)]
  {
    var u := w.uuid(|st.arena|);
    var c := ChildOf(st, h.ctx, u);
    assert |st.log| !in w.failing && |st.log| + 1 !in w.failing;
    OpenChild(st, h.ctx, w);
    ScopedUnfolds(h, Throw(reason), env, st, w);
    var s1 := State(st.client, st.arena + [c], st.log + [OpenStmt(st, h.ctx, u)]);
    var rb := Transitions.Rollback(s1, |st.arena|, w);
    assert c.savepoint.Some? ==> |c.savepoint.value| >= 3;
    assert rb.state == State(st.client, st.arena + [c.(status := Cancelled)], s1.log + [RollbackStmt(c)]);
  }

  /** The body rolls the child back itself and then throws: scoped mode's
      own `rollback()` is refused, and its "not active" error replaces the
      body's. The rollback statement is sent once. */
  lemma {:induction false} ScopedLosesBodyError(h: Handle, reason: string, env: seq<Handle>, st: State, w: World)
    requires h.ctx < |st.arena| && Accepts(w, |st.log|, 2)
    ensures var u := w.uuid(|st.arena|);
            var r := Transaction(h, Some(Seq(CallRollback(|env|), Throw(reason))), env, st, w);
            && r.out == Err(RollbackNotActive)
            && r.state.log == st.log + [OpenStmt(st, h.ctx, u), RollbackStmt(ChildOf(st, h.ctx, u))]
  {
    var u := w.uuid(|st.arena|);
    var c := ChildOf(st, h.ctx, u);
    var body := Seq(CallRollback(|env|), Throw(reason));
    var env' := env + [HandleOn(st, |st.arena|)];
    assert |st.log| !in w.failing && |st.log| + 1 !in w.failing;
    OpenChild(st, h.ctx, w);
    ScopedUnfolds(h, body, env, st, w);
    var s1 := State(st.client, st.arena + [c], st.log + [OpenStmt(st, h.ctx, u)]);
    assert c.savepoint.Some? ==> |c.savepoint.value| >= 3;
    var s2 := State(st.client, st.arena + [c.(status := Cancelled)], s1.log + [RollbackStmt(c)]);
    assert Transitions.Rollback(s1, |st.arena|, w).state == s2;
    assert env'[|env|].ctx == |st.arena|;
    assert Exec(Current, body, env', s1, w) == Step(s2, Err(Thrown(reason)));
  }

  /** Below a context that has a parent, a body that commits the child
      explicitly: the commit only releases the savepoint and leaves the
      child ACTIVE, so scoped mode commits it again, sending a second
      `RELEASE SAVEPOINT` of the same name, and hands back the opener. */
  lemma {:induction false} ScopedRecommits(h: Handle, env: seq<Handle>, st: State, w: World)
    requires h.ctx < |st.arena| && st.arena[h.ctx].parent.Some?
    requires Accepts(w, |st.log|, 3)
    ensures var n := SavepointName(w.uuid(|st.arena|));
            var r := Transaction(h, Some(CallCommit(|env|)), env, st, w);
            && r.out == Ok(HandleOn(st, h.ctx))
            && r.state.log == st.log + [Savepoint(n), Release(n), Release(n)]
            && r.state.arena[|st.arena|].status == Active
  {
    var n := SavepointName(w.uuid(|st.arena|));
    var c := Context(Active, Some(h.ctx), Some(n));
    var env' := env + [HandleOn(st, |st.arena|)];
    assert |st.log| !in w.failing && |st.log| + 1 !in w.failing && |st.log| + 2 !in w.failing;
    OpenChild(st, h.ctx, w);
    ScopedUnfolds(h, CallCommit(|env|), env, st, w);
    var s1 := State(st.client, st.arena + [c], st.log + [Savepoint(n)]);
    assert HasSavepoint(c) && s1.arena[|st.arena|] == c;
    var s2 := s1.(log := s1.log + [Release(n)]);
    assert Transitions.Commit(s1, |st.arena|, w) == Step(s2, Ok(HandleOn(st, h.ctx)));
    assert env'[|env|].ctx == |st.arena|;
    assert Exec(Current, CallCommit(|env|), env', s1, w).state == s2;
    assert s2.arena[|st.arena|] == c;
  }

  /** Directly below the `pgtx` wrapper, an explicit commit in the body
      sends `COMMIT` and closes the child, so scoped mode sends nothing more. */
  lemma {:induction false} ScopedAfterPlainCommit(h: Handle, env: seq<Handle>, st: State, w: World)
    requires h.ctx < |st.arena| && st.arena[h.ctx].parent.None?
    requires Accepts(w, |st.log|, 2)
    ensures var r := Transaction(h, Some(CallCommit(|env|)), env, st, w);
            && r.out == Ok(HandleOn(st, h.ctx))
            && r.state.log == st.log + [Begin, Stmt.Commit]
            && r.state.arena[|st.arena|].status == Committed
  {
    var c := Context(Active, Some(h.ctx), None);
    var env' := env + [HandleOn(st, |st.arena|)];
    assert |st.log| !in w.failing && |st.log| + 1 !in w.failing;
    OpenChild(st, h.ctx, w);
    ScopedUnfolds(h, CallCommit(|env|), env, st, w);
    var s1 := State(st.client, st.arena + [c], st.log + [Begin]);
    var s2 := State(st.client, st.arena + [c.(status := Committed)], s1.log + [Stmt.Commit]);
    assert Transitions.Commit(s1, |st.arena|, w).state == s2;
    assert env'[|env|].ctx == |st.arena|;
    assert Exec(Current, CallCommit(|env|), env', s1, w).state == s2;
  }
}
