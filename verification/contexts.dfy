/** The data of the transaction layer: one record per transaction context,
    kept in an arena indexed by context id, the shared client every handle
    points at, and the log of statements issued on that client. */
module Contexts {
  import opened Errors
  import opened Statements
  import opened SavepointNames

  type CtxId = nat

  /** Identity of the one `pg` client a wrapper is built on. */
  type ClientRef = nat

  datatype Status = Active | Committed | Cancelled

  /** One `TransactionContext`: its status, the context it was opened from
      (absent for the wrapper `pgtx` makes) and its savepoint name (present
      only for contexts opened two or more levels below that wrapper). */
  datatype Context = Context(status: Status, parent: Option<CtxId>, savepoint: Option<string>)

  /** A handle (the proxy): the client and the context it was created with. */
  datatype Handle = Handle(client: ClientRef, ctx: CtxId)

  datatype State = State(client: ClientRef, arena: seq<Context>, log: seq<Stmt>)

  /** What the environment decides: which issued statements the connection
      rejects (by position in the log) and the UUID `randomUUID` returns when
      the context that will get id `k` is being opened. */
  datatype World = World(failing: set<nat>, uuid: nat -> string)

  /** The new state of an operation together with its value or error. */
  datatype Step<+T> = Step(state: State, out: Result<T>)

  /** `this.activeSavePoint` as a JavaScript condition: the empty string is falsy. */
  predicate HasSavepoint(c: Context) {
    c.savepoint.Some? && c.savepoint.value != ""
  }

  /** The handle `createProxy(this.client, ctx)` builds. */
  function HandleOn(st: State, ctx: CtxId): Handle {
    Handle(st.client, ctx)
  }

  /** `await this.client.query(sql)`: the statement is sent (and so logged);
      the connection may reject it, and then the call throws. */
  function Issue(st: State, s: Stmt, w: World): (r: Step<()>)
    ensures r.state == st.(log := st.log + [s])
    ensures r.out.Err? <==> |st.log| in w.failing
    ensures r.out.Err? ==> r.out.error == QueryFailed(|st.log|)
  {
    var st' := st.(log := st.log + [s]);
    if |st.log| in w.failing then Step(st', Err(QueryFailed(|st.log|))) else Step(st', Ok(()))
  }

  /** The connection accepts the statements issued at log positions
      `from` .. `from + n - 1`. */
  predicate Accepts(w: World, from: nat, n: nat) {
    forall k :: from <= k < from + n ==> k !in w.failing
  }

  /** Replaces the record of context `c`. */
  function SetStatus(st: State, c: CtxId, s: Status): (st': State)
    requires c < |st.arena|
    ensures |st'.arena| == |st.arena| && st'.arena[c].status == s
  {
    st.(arena := st.arena[c := st.arena[c].(status := s)])
  }

  /** Every parent link points to an earlier context, so following parents
      always ends at a context that has none. */
  predicate ParentsPrecede(arena: seq<Context>) {
    forall i :: 0 <= i < |arena| && arena[i].parent.Some? ==> arena[i].parent.value < i
  }

  /** The nesting depth: 0 for a wrapper made by `pgtx`, one more per parent link. */
  function Depth(arena: seq<Context>, i: CtxId): nat
    requires ParentsPrecede(arena) && i < |arena|
    decreases i
  {
    match arena[i].parent
    case None => 0
    case Some(p) => 1 + Depth(arena, p)
  }

  /** The invariant every reachable state keeps:
      - parents precede their children;
      - a context has a savepoint exactly when its parent itself has a
        parent (the opener of a savepoint context is not a `pgtx` wrapper);
      - every savepoint name has the generated shape. */
  predicate Valid(st: State) {
    && ParentsPrecede(st.arena)
    && (forall i :: 0 <= i < |st.arena| ==> SavepointRule(st.arena, i))
  }

  /** Context `i` has a savepoint exactly when its parent has a parent, and
      then the name has the generated shape. */
  predicate SavepointRule(arena: seq<Context>, i: CtxId)
    requires i < |arena|
  {
    && (arena[i].savepoint.Some? <==>
          arena[i].parent.Some? && arena[i].parent.value < |arena| && arena[arena[i].parent.value].parent.Some?)
    && (arena[i].savepoint.Some? ==> IsSavepointName(arena[i].savepoint.value))
  }

  /** A handle that points at an existing context of this client. */
  predicate HandleValid(st: State, h: Handle) {
    h.client == st.client && h.ctx < |st.arena|
  }

  /** How a state may evolve: same client, contexts only added, parent and
      savepoint of each context fixed for life, a COMMITTED or CANCELLED
      status never changes again, and statements are only appended. */
  predicate Extends(st: State, st': State) {
    && st'.client == st.client
    && |st.arena| <= |st'.arena|
    && (forall i :: 0 <= i < |st.arena| ==>
          && st'.arena[i].parent == st.arena[i].parent
          && st'.arena[i].savepoint == st.arena[i].savepoint
          && (st.arena[i].status != Active ==> st'.arena[i].status == st.arena[i].status))
    && st.log <= st'.log
  }

  lemma ExtendsTransitive(a: State, b: State, c: State)
    requires Extends(a, b) && Extends(b, c)
    ensures Extends(a, c)
  {
  }

  /** In a valid state the savepoint is set exactly at depth two or more:
      the wrapper (depth 0) and its direct children (depth 1) use plain
      `BEGIN`/`COMMIT`/`ROLLBACK`. */
  lemma SavepointIffDepthAtLeastTwo(st: State, i: CtxId)
    requires Valid(st) && i < |st.arena|
    ensures st.arena[i].savepoint.Some? <==> Depth(st.arena, i) >= 2
  {
    assert SavepointRule(st.arena, i);
    match st.arena[i].parent
    case None =>
    case Some(p) =>
      assert Depth(st.arena, i) == 1 + Depth(st.arena, p);
      match st.arena[p].parent
      case None =>
      case Some(g) =>
        assert Depth(st.arena, p) == 1 + Depth(st.arena, g);
  }

  /** In a valid state a savepoint name is never the empty string, so the
      JavaScript truthiness test agrees with "a savepoint name is set". */
  lemma HasSavepointIffSet(st: State, i: CtxId)
    requires Valid(st) && i < |st.arena|
    ensures HasSavepoint(st.arena[i]) <==> st.arena[i].savepoint.Some?
  {
    assert SavepointRule(st.arena, i);
  }
}
