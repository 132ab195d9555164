/** What a sequence of `commit`/`rollback` calls on one context does, in
    both copies of `TransactionContext` (they share these rules). The
    savepoint branch of `commit` never records COMMITTED, so only the plain
    `COMMIT` and both rollbacks close a context for good. */
module Lifecycle {
  import opened Errors
  import opened Statements
  import opened SavepointNames
  import opened Contexts
  import opened Transitions

  /** A nested commit is accepted again and again: each call sends another
      `RELEASE SAVEPOINT` of the same name and the context stays ACTIVE. */
  lemma {:induction false} NestedCommitRepeats(st: State, c: CtxId, w: World)
    requires c < |st.arena| && st.arena[c].status == Active
    requires st.arena[c].parent.Some? && HasSavepoint(st.arena[c])
    requires Accepts(w, |st.log|, 2)
    ensures var r1 := Transitions.Commit(st, c, w);
            var r2 := Transitions.Commit(r1.state, c, w);
            && r1.out.Ok? && r2.out.Ok?
            && r2.state.arena == st.arena
            && r2.state.log == st.log + [Release(st.arena[c].savepoint.value), Release(st.arena[c].savepoint.value)]
            && r2.out.value == r1.out.value
  {
    var n := st.arena[c].savepoint.value;
    assert |st.log| !in w.failing && |st.log| + 1 !in w.failing;
    var r1 := Transitions.Commit(st, c, w);
    assert r1.state == st.(log := st.log + [Release(n)]);
    assert r1.state.arena[c] == st.arena[c];
  }

  /** A plain commit (no savepoint) closes the context: a second commit and
      a later rollback are both refused, and neither sends anything. */
  lemma PlainCommitIsFinal(st: State, c: CtxId, w: World)
    requires c < |st.arena| && st.arena[c].status == Active
    requires !(st.arena[c].parent.Some? && HasSavepoint(st.arena[c]))
    requires |st.log| !in w.failing
    ensures var r1 := Transitions.Commit(st, c, w);
            && r1.out.Ok? && r1.state.log == st.log + [Stmt.Commit]
            && Transitions.Commit(r1.state, c, w) == Step(r1.state, Err(CommitNotActive))
            && Transitions.Rollback(r1.state, c, w) == Step(r1.state, Err(RollbackNotActive))
  {
  }

  /** After a successful rollback, at any depth, the context is closed:
      commit and rollback are both refused with their own messages and
      send nothing. */
  lemma RollbackIsFinal(st: State, c: CtxId, w: World)
    requires c < |st.arena| && st.arena[c].status == Active
    requires |st.log| !in w.failing
    ensures var r1 := Transitions.Rollback(st, c, w);
            && r1.out.Ok? && r1.state.log == st.log + [RollbackStmt(st.arena[c])]
            && Transitions.Commit(r1.state, c, w) == Step(r1.state, Err(CommitNotActive))
            && Transitions.Rollback(r1.state, c, w) == Step(r1.state, Err(RollbackNotActive))
  {
  }

  /** A nested commit followed by a rollback: the rollback is still
      accepted, because the commit left the context ACTIVE. */
  lemma {:induction false} RollbackAfterNestedCommit(st: State, c: CtxId, w: World)
    requires c < |st.arena| && st.arena[c].status == Active
    requires st.arena[c].parent.Some? && HasSavepoint(st.arena[c])
    requires Accepts(w, |st.log|, 2)
    ensures var r1 := Transitions.Commit(st, c, w);
            var r2 := Transitions.Rollback(r1.state, c, w);
            var n := st.arena[c].savepoint.value;
            && r2.out.Ok?
            && r2.state.log == st.log + [Release(n), RollbackTo(n)]
            && r2.state.arena[c].status == Cancelled
  {
    var n := st.arena[c].savepoint.value;
    assert |st.log| !in w.failing && |st.log| + 1 !in w.failing;
    var r1 := Transitions.Commit(st, c, w);
    assert r1.state == st.(log := st.log + [Release(n)]);
    assert r1.state.arena[c] == st.arena[c];
  }

  /** Each call sends the statement its branch names, whether or not the
      connection then rejects it, and a rejected statement leaves every
      status as it was. */
  lemma SentStatement(st: State, c: CtxId, w: World)
    requires c < |st.arena| && st.arena[c].status == Active
    ensures Transitions.Commit(st, c, w).state.log == st.log + [CommitStmt(st.arena[c])]
    ensures Transitions.Rollback(st, c, w).state.log == st.log + [RollbackStmt(st.arena[c])]
    ensures |st.log| in w.failing ==>
              && Transitions.Commit(st, c, w).state.arena == st.arena
              && Transitions.Rollback(st, c, w).state.arena == st.arena
  {
    var r := Transitions.Commit(st, c, w);
    assert r.state.log[..|st.log|] == st.log;
    var q := Transitions.Rollback(st, c, w);
    assert q.state.log[..|st.log|] == st.log;
  }

  // ---- the depth numbering, from the wrapper `pgtx` makes ----

  /** The state after `pgtx(client)` on a fresh connection. */
  function Fresh(client: ClientRef): State {
    Wrap(Connect(client)).0
  }

  /** Depth 0 (the wrapper) opens with `BEGIN`; depth 1 opens its children
      with a savepoint; committing the depth-2 context releases the savepoint
      and returns depth 1; committing depth 1 sends `COMMIT` and returns the
      wrapper, which is still ACTIVE. */
  lemma {:induction false} DepthNumbering(client: ClientRef, w: World)
    requires Accepts(w, 0, 4)
    ensures var o1 := Open(Fresh(client), 0, w.uuid(1), w);
            var o2 := Open(o1.state, 1, w.uuid(2), w);
            var c2 := Transitions.Commit(o2.state, 2, w);
            var c1 := Transitions.Commit(c2.state, 1, w);
            var n := SavepointName(w.uuid(2));
            && o1.out == Ok(1) && o2.out == Ok(2)
            && c2.out == Ok(Handle(client, 1)) && c1.out == Ok(Handle(client, 0))
            && c1.state.log == [Begin, Savepoint(n), Release(n), Stmt.Commit]
            && c1.state.arena == [Context(Active, None, None),
                                  Context(Committed, Some(0), None),
                                  Context(Active, Some(1), Some(n))]
  {
    var n := SavepointName(w.uuid(2));
    assert 0 !in w.failing && 1 !in w.failing && 2 !in w.failing && 3 !in w.failing;
    var s0 := Fresh(client);
    assert s0 == State(client, [Context(Active, None, None)], []);
    var s1 := State(client, [Context(Active, None, None), Context(Active, Some(0), None)], [Begin]);
    assert Open(s0, 0, w.uuid(1), w) == Step(s1, Ok(1));
    var child := Context(Active, Some(1), Some(n));
    var s2 := State(client, s1.arena + [child], [Begin, Savepoint(n)]);
    assert Open(s1, 1, w.uuid(2), w) == Step(s2, Ok(2));
    assert HasSavepoint(child);
    var s3 := s2.(log := [Begin, Savepoint(n), Release(n)]);
    assert Transitions.Commit(s2, 2, w) == Step(s3, Ok(Handle(client, 1)));
    var s4 := State(client, [Context(Active, None, None), Context(Committed, Some(0), None), child],
                    [Begin, Savepoint(n), Release(n), Stmt.Commit]);
    assert Transitions.Commit(s3, 1, w) == Step(s4, Ok(Handle(client, 0)));
  }
}
