/** Caller code as data. A transaction body is a small program that talks
    to the handles it can see: the ones of the enclosing bodies (closures
    capture them), its own parameter, and those returned to it so far.
    `Exec` runs such a program; `Transaction` (src/TransactionContext.ts) and
    `LegacyTransaction` (src/index.ts) run a body between opening and
    closing a child context. */
module Programs {
  import opened Errors
  import opened Statements
  import opened SavepointNames
  import opened Contexts
  import opened Transitions

  /** Which copy of `TransactionContext` the program runs against. */
  datatype Variant = Current | Legacy

  /** Handles are named by their position in the environment. */
  datatype Cmd =
    | Skip
    | Seq(first: Cmd, next: Cmd)
    /** `await h.query(sql, args)`: the proxy hands `query` to the client */
    | CallQuery(on: nat, sql: string, args: seq<int>)
    /** `await h.transaction(body)`, or `h.transaction()` when `body` is None */
    | CallTransaction(on: nat, body: Option<Cmd>)
    | CallCommit(on: nat)
    | CallRollback(on: nat)
    /** `throw new Error(reason)` */
    | Throw(reason: string)
    /** `try { guarded } catch {}`: any error of `guarded` is swallowed */
    | Catch(guarded: Cmd)

  predicate EnvValid(st: State, env: seq<Handle>) {
    forall i :: 0 <= i < |env| ==> HandleValid(st, env[i])
  }

  lemma EnvValidExtends(st: State, st': State, env: seq<Handle>)
    requires EnvValid(st, env) && Extends(st, st')
    ensures EnvValid(st', env)
  {
  }

  /** The error a body ended with, if any. */
  function ErrorOf<T>(r: Result<T>): (e: Option<Error>)
    ensures e.Some? <==> r.Err?
    ensures r.Err? ==> e.value == r.error
  {
    if r.Err? then Some(r.error) else None
  }

  /** The cheap part of `Extends`: same client, no context removed, the
      log only appended to. */
  predicate Grows(st: State, st': State) {
    st'.client == st.client && |st.arena| <= |st'.arena| && st.log <= st'.log
  }

  /** Runs `c` with handles `env`; a normal end yields the environment with
      the handles returned along the way appended. A handle on a context
      that does not exist is reported as a ReferenceError; valid states
      never reach that case (`ExecKeepsValid`). */
  function Exec(v: Variant, c: Cmd, env: seq<Handle>, st: State, w: World): (r: Step<seq<Handle>>)
    ensures Grows(st, r.state)
    ensures r.out.Ok? ==> env <= r.out.value
    decreases c, 1
  {
    match c
    case Skip => Step(st, Ok(env))
    case Seq(a, b) =>
      var ra := Exec(v, a, env, st, w);
      if ra.out.Err? then ra else Exec(v, b, ra.out.value, ra.state, w)
    case CallQuery(on, sql, args) =>
      if on >= |env| then Step(st, Err(ReferenceError))
      else
        var q := Issue(st, Data(sql, args), w);
        if q.out.Err? then Step(q.state, Err(q.out.error)) else Step(q.state, Ok(env))
    case CallTransaction(on, body) =>
      if on >= |env| then Step(st, Err(ReferenceError))
      else if v.Current? then
        var t := Transaction(env[on], body, env, st, w);
        if t.out.Err? then Step(t.state, Err(t.out.error)) else Step(t.state, Ok(env + [t.out.value]))
      else
        var t := LegacyTransaction(env[on], body, env, st, w);
        if t.out.Err? then Step(t.state, Err(t.out.error)) else Step(t.state, Ok(env))
    case CallCommit(on) =>
      if on >= |env| || env[on].ctx >= |st.arena| then Step(st, Err(ReferenceError))
      else
        var t := Transitions.Commit(st, env[on].ctx, w);
        if t.out.Err? then Step(t.state, Err(t.out.error)) else Step(t.state, Ok(env + [t.out.value]))
    case CallRollback(on) =>
      if on >= |env| || env[on].ctx >= |st.arena| then Step(st, Err(ReferenceError))
      else
        var t := Transitions.Rollback(st, env[on].ctx, w);
        if t.out.Err? then Step(t.state, Err(t.out.error)) else Step(t.state, Ok(env + [t.out.value]))
    case Throw(reason) => Step(st, Err(Thrown(reason)))
    case Catch(guarded) =>
      var rb := Exec(v, guarded, env, st, w);
      Step(rb.state, Ok(env))
  }

  /** `transaction(childTransaction?)` of src/TransactionContext.ts, called
      through handle `h`. Without a body (explicit mode) the handle on the new
      child is returned; with one (scoped mode) the body runs on that handle
      and is closed by `FinishScoped`, and a handle on the opener is returned. */
  function Transaction(h: Handle, body: Option<Cmd>, env: seq<Handle>, st: State, w: World)
    : (r: Step<Handle>)
    ensures Grows(st, r.state)
    ensures h.ctx < |st.arena| ==>
              |r.state.log| > |st.log| && r.state.log[|st.log|] == OpenStmt(st, h.ctx, w.uuid(|st.arena|))
    // explicit mode: only the opening statement, and a handle on the new ACTIVE child
    ensures body.None? && h.ctx < |st.arena| ==>
              r.state.log == st.log + [OpenStmt(st, h.ctx, w.uuid(|st.arena|))]
    ensures body.None? && h.ctx < |st.arena| && r.out.Ok? ==>
              && r.out.value == HandleOn(st, |st.arena|)
              && r.state.arena == st.arena + [ChildOf(st, h.ctx, w.uuid(|st.arena|))]
    // scoped mode: control comes back to the opener
    ensures body.Some? && r.out.Ok? ==> r.out.value == HandleOn(st, h.ctx)
    decreases body, 0
  {
    if h.ctx >= |st.arena| then Step(st, Err(ReferenceError))
    else
      var o := Open(st, h.ctx, w.uuid(|st.arena|), w);
      if o.out.Err? then Step(o.state, Err(o.out.error))
      else
        var child := o.out.value;
        var proxy := HandleOn(st, child);
        match body
        case None => Step(o.state, Ok(proxy))
        case Some(b) =>
          var rb := Exec(Current, b, env + [proxy], o.state, w);
          FinishScoped(rb.state, h.ctx, child, ErrorOf(rb.out), w)
  }

  /** `transaction(childTransaction)` of src/index.ts: the body is mandatory
      (calling it without one throws a TypeError once the child is open), a
      body error propagates with no rollback, and nothing is returned. */
  function LegacyTransaction(h: Handle, body: Option<Cmd>, env: seq<Handle>, st: State, w: World)
    : (r: Step<()>)
    ensures Grows(st, r.state)
    ensures h.ctx < |st.arena| ==>
              |r.state.log| > |st.log| && r.state.log[|st.log|] == OpenStmt(st, h.ctx, w.uuid(|st.arena|))
    ensures body.None? && h.ctx < |st.arena| ==>
              r.state.log == st.log + [OpenStmt(st, h.ctx, w.uuid(|st.arena|))]
    ensures body.None? && h.ctx < |st.arena| && |st.log| !in w.failing ==> r.out == Err(NotAFunction)
    decreases body, 0
  {
    if h.ctx >= |st.arena| then Step(st, Err(ReferenceError))
    else
      var o := Open(st, h.ctx, w.uuid(|st.arena|), w);
      if o.out.Err? then Step(o.state, Err(o.out.error))
      else
        var child := o.out.value;
        var proxy := HandleOn(st, child);
        match body
        case None => Step(o.state, Err(NotAFunction))
        case Some(b) =>
          var rb := Exec(Legacy, b, env + [proxy], o.state, w);
          FinishLegacy(rb.state, child, ErrorOf(rb.out), w)
  }

  // ---- running caller code keeps the invariant ----

  /** What a step of caller code keeps: a valid state, an evolution that
      `Extends` allows, and usable handles on a normal end. */
  predicate Preserved(st: State, r: Step<seq<Handle>>) {
    Valid(r.state) && Extends(st, r.state) && (r.out.Ok? ==> EnvValid(r.state, r.out.value))
  }

  /** Whatever the caller code does, the state stays valid, it only evolves
      as `Extends` allows (in particular a COMMITTED or CANCELLED context is
      never reopened), and every handle the code holds stays usable. */
  lemma {:induction false} ExecKeepsValid(v: Variant, c: Cmd, env: seq<Handle>, st: State, w: World)
    requires Valid(st) && EnvValid(st, env)
    ensures Preserved(st, Exec(v, c, env, st, w))
    decreases c, 1
  {
    match c
    case Skip =>
    case Seq(a, b) =>
      ExecKeepsValid(v, a, env, st, w);
      var ra := Exec(v, a, env, st, w);
      if ra.out.Ok? {
        ExecKeepsValid(v, b, ra.out.value, ra.state, w);
      }
      SeqPreserves(v, a, b, env, st, w);
    case CallQuery(on, sql, args) =>
    case CallTransaction(on, body) =>
      if on < |env| {
        if v.Current? {
          TransactionKeepsValid(env[on], body, env, st, w);
        } else {
          LegacyTransactionKeepsValid(env[on], body, env, st, w);
        }
      }
      CallTransactionPreserves(v, on, body, env, st, w);
    case CallCommit(on) =>
      CallCommitPreserves(v, on, env, st, w);
    case CallRollback(on) =>
      CallRollbackPreserves(v, on, env, st, w);
    case Throw(reason) =>
    case Catch(guarded) =>
      ExecKeepsValid(v, guarded, env, st, w);
      CatchPreserves(v, guarded, env, st, w);
  }

  lemma SeqPreserves(v: Variant, a: Cmd, b: Cmd, env: seq<Handle>, st: State, w: World)
    requires Preserved(st, Exec(v, a, env, st, w))
    requires var ra := Exec(v, a, env, st, w);
             ra.out.Ok? ==> Preserved(ra.state, Exec(v, b, ra.out.value, ra.state, w))
    ensures Preserved(st, Exec(v, Seq(a, b), env, st, w))
  {
    var ra := Exec(v, a, env, st, w);
    if ra.out.Ok? {
      ExtendsTransitive(st, ra.state, Exec(v, b, ra.out.value, ra.state, w).state);
    }
  }

  lemma CatchPreserves(v: Variant, guarded: Cmd, env: seq<Handle>, st: State, w: World)
    requires EnvValid(st, env)
    requires Preserved(st, Exec(v, guarded, env, st, w))
    ensures Preserved(st, Exec(v, Catch(guarded), env, st, w))
  {
    EnvValidExtends(st, Exec(v, guarded, env, st, w).state, env);
  }

  lemma CallTransactionPreserves(v: Variant, on: nat, body: Option<Cmd>, env: seq<Handle>, st: State, w: World)
    requires Valid(st) && EnvValid(st, env)
    requires on < |env| && v.Current? ==>
               var r := Transaction(env[on], body, env, st, w);
               Valid(r.state) && Extends(st, r.state) && (r.out.Ok? ==> HandleValid(r.state, r.out.value))
    requires on < |env| && v.Legacy? ==>
               var r := LegacyTransaction(env[on], body, env, st, w);
               Valid(r.state) && Extends(st, r.state)
    ensures Preserved(st, Exec(v, CallTransaction(on, body), env, st, w))
  {
    if on < |env| {
      if v.Current? {
        EnvValidExtends(st, Transaction(env[on], body, env, st, w).state, env);
      } else {
        EnvValidExtends(st, LegacyTransaction(env[on], body, env, st, w).state, env);
      }
    }
  }

  lemma CallCommitPreserves(v: Variant, on: nat, env: seq<Handle>, st: State, w: World)
    requires Valid(st) && EnvValid(st, env)
    ensures Preserved(st, Exec(v, CallCommit(on), env, st, w))
  {
    if on < |env| {
      CommitKeepsValid(st, env[on].ctx, w);
      EnvValidExtends(st, Transitions.Commit(st, env[on].ctx, w).state, env);
    }
  }

  lemma CallRollbackPreserves(v: Variant, on: nat, env: seq<Handle>, st: State, w: World)
    requires Valid(st) && EnvValid(st, env)
    ensures Preserved(st, Exec(v, CallRollback(on), env, st, w))
  {
    if on < |env| {
      RollbackKeepsValid(st, env[on].ctx, w);
      EnvValidExtends(st, Transitions.Rollback(st, env[on].ctx, w).state, env);
    }
  }

  lemma {:induction false} TransactionKeepsValid(h: Handle, body: Option<Cmd>, env: seq<Handle>, st: State, w: World)
    requires Valid(st) && EnvValid(st, env) && HandleValid(st, h)
    ensures var r := Transaction(h, body, env, st, w);
            Valid(r.state) && Extends(st, r.state) && (r.out.Ok? ==> HandleValid(r.state, r.out.value))
    decreases body, 0
  {
    var o := Open(st, h.ctx, w.uuid(|st.arena|), w);
    OpenKeepsValid(st, h.ctx, w.uuid(|st.arena|), w);
    if o.out.Ok? && body.Some? {
      var env' := env + [HandleOn(st, o.out.value)];
      EnvValidExtends(st, o.state, env);
      ExecKeepsValid(Current, body.value, env', o.state, w);
      var rb := Exec(Current, body.value, env', o.state, w);
      var e := ErrorOf(rb.out);
      FinishScopedKeepsValid(rb.state, h.ctx, o.out.value, e, w);
      ExtendsTransitive(st, o.state, rb.state);
      ExtendsTransitive(st, rb.state, FinishScoped(rb.state, h.ctx, o.out.value, e, w).state);
    }
  }

  lemma {:induction false} LegacyTransactionKeepsValid(h: Handle, body: Option<Cmd>, env: seq<Handle>, st: State, w: World)
    requires Valid(st) && EnvValid(st, env) && HandleValid(st, h)
    ensures var r := LegacyTransaction(h, body, env, st, w);
            Valid(r.state) && Extends(st, r.state)
    decreases body, 0
  {
    var o := Open(st, h.ctx, w.uuid(|st.arena|), w);
    OpenKeepsValid(st, h.ctx, w.uuid(|st.arena|), w);
    if o.out.Ok? && body.Some? {
      var env' := env + [HandleOn(st, o.out.value)];
      EnvValidExtends(st, o.state, env);
      ExecKeepsValid(Legacy, body.value, env', o.state, w);
      var rb := Exec(Legacy, body.value, env', o.state, w);
      var e := ErrorOf(rb.out);
      FinishLegacyKeepsValid(rb.state, o.out.value, e, w);
      ExtendsTransitive(st, o.state, rb.state);
      ExtendsTransitive(st, rb.state, FinishLegacy(rb.state, o.out.value, e, w).state);
    }
  }
}
