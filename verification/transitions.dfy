/** The state machine of one `TransactionContext`: opening a child, commit,
    rollback, and what scoped mode does once the caller's body has run.
    `src/TransactionContext.ts` and the older copy in `src/index.ts` share
    these rules word for word. */
module Transitions {
  import opened Errors
  import opened Statements
  import opened SavepointNames
  import opened Contexts

  /** `this.parentTransaction || this`: the context a commit or rollback
      without a savepoint hands control back to. */
  function ParentOrSelf(st: State, c: CtxId): CtxId
    requires c < |st.arena|
  {
    match st.arena[c].parent
    case Some(p) => p
    case None => c
  }

  /** The statement `commit()` sends for an ACTIVE context `c`. */
  function CommitStmt(c: Context): Stmt {
    if c.parent.Some? && HasSavepoint(c) then Release(c.savepoint.value) else Stmt.Commit
  }

  /** The statement `rollback()` sends for an ACTIVE context `c`. */
  function RollbackStmt(c: Context): Stmt {
    if HasSavepoint(c) && c.parent.Some? then RollbackTo(c.savepoint.value) else Stmt.Rollback
  }

  /** The status an accepted `commit()` leaves on an ACTIVE context `c`:
      the savepoint branch does not touch it, the `COMMIT` branch records
      COMMITTED. */
  function CommittedStatus(c: Context): Status {
    if c.parent.Some? && HasSavepoint(c) then Active else Committed
  }

  /** `st'` differs from `st` at most in the record of context `c`. */
  predicate OthersUnchanged(st: State, st': State, c: CtxId) {
    && |st'.arena| == |st.arena|
    && forall i :: 0 <= i < |st.arena| && i != c ==> st'.arena[i] == st.arena[i]
  }

  /** The statement that opens a child of `opener` when the UUID source
      yields `uuid`. */
  function OpenStmt(st: State, opener: CtxId, uuid: string): Stmt
    requires opener < |st.arena|
  {
    if st.arena[opener].parent.Some? then Savepoint(SavepointName(uuid)) else Begin
  }

  /** The context `transaction` creates below `opener`. */
  function ChildOf(st: State, opener: CtxId, uuid: string): Context
    requires opener < |st.arena|
  {
    Context(Active, Some(opener), if st.arena[opener].parent.Some? then Some(SavepointName(uuid)) else None)
  }

  /** Opens a child of `opener` (the first half of `transaction`): a
      `SAVEPOINT` with a fresh name when the opener has a parent, `BEGIN`
      otherwise; the child is created only once that statement succeeded.
      The opener's own status is neither consulted nor changed. */
  function Open(st: State, opener: CtxId, uuid: string, w: World): (r: Step<CtxId>)
    requires opener < |st.arena|
    ensures |r.state.log| == |st.log| + 1 && r.state.log[..|st.log|] == st.log
    ensures st.arena[opener].parent.None? ==> r.state.log[|st.log|] == Begin
    ensures st.arena[opener].parent.Some? ==>
              r.state.log[|st.log|] == Savepoint(SavepointName(uuid))
              && IsSavepointName(r.state.log[|st.log|].name)
    ensures r.state.client == st.client
    ensures r.out.Ok? <==> |st.log| !in w.failing
    ensures r.out.Err? ==> r.state.arena == st.arena && r.out.error == QueryFailed(|st.log|)
    ensures r.out.Ok? ==>
              && r.out.value == |st.arena|
              && r.state.arena == st.arena + [Context(Active, Some(opener),
                   if st.arena[opener].parent.Some? then Some(r.state.log[|st.log|].name) else None)]
  {
    var q := Issue(st, OpenStmt(st, opener, uuid), w);
    if q.out.Err? then Step(q.state, Err(q.out.error))
    else Step(q.state.(arena := st.arena + [ChildOf(st, opener, uuid)]), Ok(|st.arena|))
  }

  /** `commit()`. */
  function Commit(st: State, c: CtxId, w: World): (r: Step<Handle>)
    requires c < |st.arena|
    ensures st.arena[c].status != Active ==> r == Step(st, Err(CommitNotActive))
    ensures st.arena[c].status == Active ==>
              && |r.state.log| == |st.log| + 1 && r.state.log[..|st.log|] == st.log
              && r.state.client == st.client
              && OthersUnchanged(st, r.state, c)
              && (r.out.Err? <==> |st.log| in w.failing)
              && (r.out.Err? ==> r.state.arena == st.arena && r.out.error == QueryFailed(|st.log|))
    // nested: RELEASE SAVEPOINT, and the status is left ACTIVE
    ensures st.arena[c].status == Active && st.arena[c].parent.Some? && HasSavepoint(st.arena[c]) ==>
              && r.state.log[|st.log|] == Release(st.arena[c].savepoint.value)
              && r.state.arena == st.arena
              && (r.out.Ok? ==> r.out.value == HandleOn(st, st.arena[c].parent.value))
    // otherwise: COMMIT, and the context becomes COMMITTED
    ensures st.arena[c].status == Active && !(st.arena[c].parent.Some? && HasSavepoint(st.arena[c])) ==>
              && r.state.log[|st.log|] == Stmt.Commit
              && (r.out.Ok? ==> r.state.arena[c] == st.arena[c].(status := Committed))
              && (r.out.Ok? ==> r.out.value == HandleOn(st, ParentOrSelf(st, c)))
  {
    var ctx := st.arena[c];
    if ctx.status != Active then Step(st, Err(CommitNotActive))
    else if ctx.parent.Some? && HasSavepoint(ctx) then
      var q := Issue(st, Release(ctx.savepoint.value), w);
      if q.out.Err? then Step(q.state, Err(q.out.error))
      else Step(q.state, Ok(HandleOn(st, ctx.parent.value)))
    else
      var q := Issue(st, Stmt.Commit, w);
      if q.out.Err? then Step(q.state, Err(q.out.error))
      else Step(SetStatus(q.state, c, Committed), Ok(HandleOn(st, ParentOrSelf(st, c))))
  }

  /** `rollback()`. */
  function Rollback(st: State, c: CtxId, w: World): (r: Step<Handle>)
    requires c < |st.arena|
    ensures st.arena[c].status != Active ==> r == Step(st, Err(RollbackNotActive))
    ensures st.arena[c].status == Active ==>
              && |r.state.log| == |st.log| + 1 && r.state.log[..|st.log|] == st.log
              && r.state.client == st.client
              && OthersUnchanged(st, r.state, c)
              && (r.out.Err? <==> |st.log| in w.failing)
              && (r.out.Err? ==> r.state.arena == st.arena && r.out.error == QueryFailed(|st.log|))
              && (r.out.Ok? ==> r.state.arena[c] == st.arena[c].(status := Cancelled))
    // nested: ROLLBACK TO SAVEPOINT, control goes back to the parent
    ensures st.arena[c].status == Active && HasSavepoint(st.arena[c]) && st.arena[c].parent.Some? ==>
              && r.state.log[|st.log|] == RollbackTo(st.arena[c].savepoint.value)
              && (r.out.Ok? ==> r.out.value == HandleOn(st, st.arena[c].parent.value))
    // otherwise: ROLLBACK, control goes to the parent if any, else stays here
    ensures st.arena[c].status == Active && !(HasSavepoint(st.arena[c]) && st.arena[c].parent.Some?) ==>
              && r.state.log[|st.log|] == Stmt.Rollback
              && (r.out.Ok? ==> r.out.value == HandleOn(st, ParentOrSelf(st, c)))
  {
    var ctx := st.arena[c];
    if ctx.status != Active then Step(st, Err(RollbackNotActive))
    else if HasSavepoint(ctx) && ctx.parent.Some? then
      var q := Issue(st, RollbackTo(ctx.savepoint.value), w);
      if q.out.Err? then Step(q.state, Err(q.out.error))
      else Step(SetStatus(q.state, c, Cancelled), Ok(HandleOn(st, ctx.parent.value)))
    else
      var q := Issue(st, Stmt.Rollback, w);
      if q.out.Err? then Step(q.state, Err(q.out.error))
      else Step(SetStatus(q.state, c, Cancelled), Ok(HandleOn(st, ParentOrSelf(st, c))))
  }

  /** Scoped mode after the body has run on `child` (opened from `opener`):
      if the body threw, roll the child back and rethrow; otherwise commit
      the child if it is still ACTIVE, and hand back the opener. */
  function FinishScoped(st: State, opener: CtxId, child: CtxId, bodyError: Option<Error>, w: World)
    : (r: Step<Handle>)
    requires opener < |st.arena| && child < |st.arena|
    // the body threw while the child was ACTIVE: the child's own rollback
    // statement is sent, and no other context changes
    ensures bodyError.Some? && st.arena[child].status == Active ==>
              && r.state.log == st.log + [RollbackStmt(st.arena[child])]
              && OthersUnchanged(st, r.state, child)
    // ... and once it went through, the child is CANCELLED and the same error is rethrown
    ensures bodyError.Some? && st.arena[child].status == Active && |st.log| !in w.failing ==>
              && r.out == Err(bodyError.value)
              && r.state.arena[child] == st.arena[child].(status := Cancelled)
    // the body threw after the child was closed: the rollback's own error replaces the body's
    ensures bodyError.Some? && st.arena[child].status != Active ==>
              r == Step(st, Err(RollbackNotActive))
    // the body threw and the rollback statement failed: that failure replaces the body's error
    ensures bodyError.Some? && st.arena[child].status == Active && |st.log| in w.failing ==>
              r.out == Err(QueryFailed(|st.log|)) && r.state.arena == st.arena
    // the body returned and the child was still ACTIVE: exactly the child's commit statement
    ensures bodyError.None? && st.arena[child].status == Active ==>
              && r.state.log == st.log + [CommitStmt(st.arena[child])]
              && OthersUnchanged(st, r.state, child)
              && (r.out.Ok? <==> |st.log| !in w.failing)
              && (r.out.Err? ==> r.out.error == QueryFailed(|st.log|) && r.state.arena == st.arena)
              && (r.out.Ok? ==> r.state.arena[child] == st.arena[child].(status := CommittedStatus(st.arena[child])))
    // the body returned after closing the child itself: nothing more is issued
    ensures bodyError.None? && st.arena[child].status != Active ==> r.state == st
    ensures bodyError.None? && r.out.Ok? ==> r.out.value == HandleOn(st, opener)
  {
    match bodyError
    case Some(e) =>
      var rb := Rollback(st, child, w);
      if rb.out.Err? then Step(rb.state, Err(rb.out.error)) else Step(rb.state, Err(e))
    case None =>
      if st.arena[child].status == Active then
        var cm := Commit(st, child, w);
        if cm.out.Err? then Step(cm.state, Err(cm.out.error)) else Step(cm.state, Ok(HandleOn(st, opener)))
      else Step(st, Ok(HandleOn(st, opener)))
  }

  /** The older `transaction` of `src/index.ts` after its body has run: an
      error from the body propagates with no rollback; otherwise the child is
      committed if it is still ACTIVE. Nothing is returned. */
  function FinishLegacy(st: State, child: CtxId, bodyError: Option<Error>, w: World): (r: Step<()>)
    requires child < |st.arena|
    ensures bodyError.Some? ==> r == Step(st, Err(bodyError.value))
    ensures bodyError.None? && st.arena[child].status != Active ==> r == Step(st, Ok(()))
    ensures bodyError.None? && st.arena[child].status == Active ==>
              && r.state.log == st.log + [CommitStmt(st.arena[child])]
              && OthersUnchanged(st, r.state, child)
              && (r.out.Ok? <==> |st.log| !in w.failing)
              && (r.out.Err? ==> r.out.error == QueryFailed(|st.log|) && r.state.arena == st.arena)
              && (r.out.Ok? ==> r.state.arena[child] == st.arena[child].(status := CommittedStatus(st.arena[child])))
  {
    match bodyError
    case Some(e) => Step(st, Err(e))
    case None =>
      if st.arena[child].status == Active then
        var cm := Commit(st, child, w);
        if cm.out.Err? then Step(cm.state, Err(cm.out.error)) else Step(cm.state, Ok(()))
      else Step(st, Ok(()))
  }

  /** `pgtx(client)`: a fresh context with no parent and no savepoint, and a
      handle on it; nothing is sent to the connection. */
  function Wrap(st: State): (r: (State, Handle))
    ensures r.0.log == st.log && r.0.client == st.client
    ensures |r.0.arena| == |st.arena| + 1 && r.0.arena[..|st.arena|] == st.arena
    ensures HandleValid(r.0, r.1) && r.1.ctx == |st.arena| && r.0.arena[r.1.ctx].status == Active
    ensures Valid(st) ==> Valid(r.0) && Extends(st, r.0) && Depth(r.0.arena, r.1.ctx) == 0
  {
    var st' := st.(arena := st.arena + [Context(Active, None, None)]);
    assert Valid(st) ==> Valid(st') by {
      if Valid(st) { RootKeepsValid(st); }
    }
    (st', HandleOn(st, |st.arena|))
  }

  /** A connection before any wrapper has been made on it. */
  function Connect(client: ClientRef): (st: State)
    ensures Valid(st) && st.client == client && st.arena == [] && st.log == []
  {
    State(client, [], [])
  }

  // ---- the invariant and the evolution order are kept by every step ----

  lemma OpenKeepsValid(st: State, opener: CtxId, uuid: string, w: World)
    requires Valid(st) && opener < |st.arena|
    ensures Valid(Open(st, opener, uuid, w).state)
    ensures Extends(st, Open(st, opener, uuid, w).state)
  {
    var r := Open(st, opener, uuid, w);
    if r.out.Ok? {
      var a := r.state.arena;
      forall i | 0 <= i < |a|
        ensures SavepointRule(a, i)
      {
        if i < |st.arena| {
          assert SavepointRule(st.arena, i);
          assert a[i] == st.arena[i];
          if a[i].parent.Some? {
            assert a[a[i].parent.value] == st.arena[a[i].parent.value];
          }
        }
      }
    }
  }

  /** A step that only changes the status of context `c` keeps `Valid`. */
  lemma StatusChangeKeepsValid(st: State, st': State, c: CtxId)
    requires Valid(st) && c < |st.arena| && OthersUnchanged(st, st', c)
    requires st'.arena[c] == st.arena[c].(status := st'.arena[c].status)
    ensures Valid(st')
    ensures forall i :: 0 <= i < |st.arena| ==>
              st'.arena[i].parent == st.arena[i].parent && st'.arena[i].savepoint == st.arena[i].savepoint
  {
    var a := st'.arena;
    assert forall i :: 0 <= i < |st.arena| ==>
      a[i].parent == st.arena[i].parent && a[i].savepoint == st.arena[i].savepoint;
    forall i | 0 <= i < |a|
      ensures SavepointRule(a, i)
    {
      assert SavepointRule(st.arena, i);
    }
  }

  lemma CommitKeepsValid(st: State, c: CtxId, w: World)
    requires Valid(st) && c < |st.arena|
    ensures Valid(Commit(st, c, w).state)
    ensures Extends(st, Commit(st, c, w).state)
  {
    var r := Commit(st, c, w);
    if st.arena[c].status == Active {
      StatusChangeKeepsValid(st, r.state, c);
    }
  }

  lemma RollbackKeepsValid(st: State, c: CtxId, w: World)
    requires Valid(st) && c < |st.arena|
    ensures Valid(Rollback(st, c, w).state)
    ensures Extends(st, Rollback(st, c, w).state)
  {
    var r := Rollback(st, c, w);
    if st.arena[c].status == Active {
      StatusChangeKeepsValid(st, r.state, c);
    }
  }

  lemma FinishScopedKeepsValid(st: State, opener: CtxId, child: CtxId, bodyError: Option<Error>, w: World)
    requires Valid(st) && opener < |st.arena| && child < |st.arena|
    ensures Valid(FinishScoped(st, opener, child, bodyError, w).state)
    ensures Extends(st, FinishScoped(st, opener, child, bodyError, w).state)
  {
    RollbackKeepsValid(st, child, w);
    CommitKeepsValid(st, child, w);
  }

  lemma FinishLegacyKeepsValid(st: State, child: CtxId, bodyError: Option<Error>, w: World)
    requires Valid(st) && child < |st.arena|
    ensures Valid(FinishLegacy(st, child, bodyError, w).state)
    ensures Extends(st, FinishLegacy(st, child, bodyError, w).state)
  {
    CommitKeepsValid(st, child, w);
  }

  /** Adding a context with no parent keeps `Valid`. */
  lemma RootKeepsValid(st: State)
    requires Valid(st)
    ensures Valid(st.(arena := st.arena + [Context(Active, None, None)]))
  {
    var a := st.arena + [Context(Active, None, None)];
    assert forall i :: 0 <= i < |st.arena| ==> a[i] == st.arena[i];
    forall i | 0 <= i < |a|
      ensures SavepointRule(a, i)
    {
      if i < |st.arena| {
        assert SavepointRule(st.arena, i);
      }
    }
  }
}
