# pgtx: nested transactions over one PostgreSQL connection, in Dafny

pgtx wraps a `pg` client so that transactions can be nested to any depth.
A `TransactionContext` records one nesting level. It holds a status
(ACTIVE, COMMITTED or CANCELLED), the context it was opened from, and an
optional savepoint name.

Opening a child sends `BEGIN` when the opener has no parent. Otherwise it
sends `SAVEPOINT sp_<uuid>`. `commit` and `rollback` send `COMMIT` or
`ROLLBACK`, or, when the context has a savepoint and a parent,
`RELEASE SAVEPOINT` or `ROLLBACK TO SAVEPOINT`.

Every level is reached through a proxy handle. The handle answers a member
name from the client first, then from the context.

The model is functional:

- A state holds the client, an arena `seq<Context>` where a context's id is
  its index, and the log `seq<Stmt>` of every statement sent on the
  connection.
- Each operation is a function from a state to a new state plus a
  `Result`: a value, or one of the errors the source throws.
- A `World` fixes what the environment decides:
  - which log positions the connection rejects;
  - the UUID `randomUUID` returns for each new context.
- A rejected statement is still logged, because it was sent. No status
  changes after a rejected statement, matching the code, which assigns
  `status` after the awaited query.

Caller code is data, so the transaction bodies can be reasoned about. A
`Cmd` can:

- run a query through a handle;
- call `transaction` with or without a body;
- call `commit` or `rollback`;
- throw;
- catch.

`Programs.Exec` runs a `Cmd` against one of two variants:

- the current `TransactionContext` of src/TransactionContext.ts, with
  explicit and scoped modes;
- the older copy in src/index.ts, with a mandatory body, no try/catch and no
  return value. The integration tests import this copy.

Both variants share `Open`, `Commit` and `Rollback`, as the two files share
that code.

Files, one module each:

- `errors.dfy`: `Option`, `Result` and the errors.
- `statements.dfy`: the statements and their SQL text.
- `savepoint_names.dfy`: `'sp_' + randomUUID().replaceAll('-', '_')`.
- `contexts.dfy`: the state, the invariant `Valid` and the evolution order
  `Extends`.
- `transitions.dfy`: open, commit, rollback, what each `transaction` does
  after the body, and `pgtx`.
- `programs.dfy`: caller code, both `transaction` methods, and the proof that
  every program keeps `Valid`.
- `proxy.dfy`: `createProxy`. The inline copy at src/index.ts:66-83 is the
  same code.
- `lifecycle.dfy`: sequences of commit and rollback on one context, and the
  depth numbering.
- `scoped_mode.dfy`: scoped mode around a body, and the older copy's error
  propagation.
- `scenarios.dfy`: the statement stream of each integration test in
  src/index.test.ts.

Three behaviours of the code a reader may not expect, modelled as written:

- The savepoint branch of `commit` never sets COMMITTED. A second nested
  commit therefore passes the status check and sends a second `RELEASE SAVEPOINT`. Scoped
  mode also re-commits a child that its body committed explicitly. The model's
  connection accepts whatever statement it is given unless told otherwise,
  so `Lifecycle.NestedCommitRepeats`, `Lifecycle.RollbackAfterNestedCommit`
  and `ScopedMode.ScopedRecommits` end in `Ok`. A PostgreSQL server refuses
  a second `RELEASE SAVEPOINT`, and a `ROLLBACK TO SAVEPOINT` after the
  release, because the savepoint no longer exists. Against a live server
  these calls, and scoped mode's re-commit, fail with a query error.
- The wrapper that `pgtx` makes has no parent. Its first child has one, so
  that child uses `BEGIN`/`COMMIT`/`ROLLBACK`, and its `COMMIT` or
  `ROLLBACK` returns a handle on the wrapper, not on itself. Only depth two
  and below use savepoints.
- In scoped mode, the rollback after a body error can replace that error.
  This happens when the body had already closed the child ("not active"), or
  when the rollback statement itself fails.

## Model

| member | source | states |
|---|---|---|
| SavepointNames.SavepointName | src/TransactionContext.ts:26 | the generated name is `sp_` followed by as many characters as the UUID has, and holds no `-` |
| SavepointNames.UuidOfSavepointName | src/TransactionContext.ts:26 | for a UUID without `_`, the name has the generated shape and the UUID can be recovered from it, so the `-` to `_` rewrite loses nothing |
| SavepointNames.DistinctUuidsDistinctNames | src/TransactionContext.ts:26 | two different UUIDs give two different savepoint names, so name uniqueness reduces to the UUID source never repeating |
| SavepointNames.SavepointNameIsIdentifier | src/TransactionContext.ts:26-27 | a name built from `randomUUID` characters is an unquoted SQL identifier, safe to splice into the SAVEPOINT statements, and from a 36-character UUID it is at most 63 characters long, so PostgreSQL does not truncate it |
| Statements.SqlInjective | src/TransactionContext.ts:27-81 | two control statements with the same SQL text are the same statement, so the control statements in the stream on the connection are recovered from their text alone (a data query may carry the same text as a control statement; that case is not covered) |
| Contexts.SavepointIffDepthAtLeastTwo | src/TransactionContext.ts:25-36 | in every valid state a context has a savepoint name exactly when its depth below the `pgtx` wrapper is two or more |
| Contexts.HasSavepointIffSet | src/TransactionContext.ts:61 | in every valid state the JavaScript truthiness test on `activeSavePoint` agrees with "a name is set" (no name is empty) |
| Transitions.Open | src/TransactionContext.ts:23-36 | exactly one statement is sent: a savepoint with a generated name if the opener has a parent, else `BEGIN`; only if it is accepted is an ACTIVE child added, with the opener as parent and that name as savepoint; no existing context changes |
| Transitions.Commit | src/TransactionContext.ts:57-69 | a context that is not ACTIVE is refused with the commit error and nothing is sent; otherwise one statement is sent and only this context may change; with parent and savepoint it is `RELEASE SAVEPOINT`, the status stays ACTIVE and the parent's handle comes back; otherwise it is `COMMIT`, the status becomes COMMITTED and the handle is on the parent or, failing that, on the context itself; a rejected statement changes no status |
| Transitions.Rollback | src/TransactionContext.ts:71-84 | a context that is not ACTIVE is refused with the rollback error and nothing is sent; otherwise one statement is sent and, once it is accepted, the status becomes CANCELLED; with savepoint and parent the statement is `ROLLBACK TO SAVEPOINT` and the parent's handle comes back, otherwise it is `ROLLBACK` and the handle is on the parent or the context itself |
| Transitions.FinishScoped | src/TransactionContext.ts:43-54 | after a body error on an ACTIVE child, exactly the child's own rollback statement is sent (`ROLLBACK TO SAVEPOINT` for a savepoint child, `ROLLBACK` otherwise) and no other context changes; if it is accepted the child is CANCELLED and the same error is rethrown, if it is rejected its failure replaces the body's; a closed child makes the "not active" error replace the body's with nothing sent; after a normal body, an ACTIVE child gets exactly its own commit statement, no other context changes, and once accepted the child stays ACTIVE after `RELEASE SAVEPOINT` or becomes COMMITTED after `COMMIT`; a closed child gets nothing; the handle returned is on the opener |
| Transitions.FinishLegacy | src/index.ts:29-33 | a body error propagates unchanged and nothing is sent; after a normal body, an ACTIVE child gets exactly its own commit statement (`RELEASE SAVEPOINT` or `COMMIT`), no other context changes, and once accepted the child stays ACTIVE or becomes COMMITTED by the same rule as `commit`; a closed child gets nothing |
| Transitions.Wrap | src/index.ts:86-89 | `pgtx` sends nothing and keeps every existing context; the handle it returns is usable and on an ACTIVE context; from a valid state the result is valid, only extends the state, and the new context is at depth 0 |
| Transitions.OpenKeepsValid | src/TransactionContext.ts:23-36 | opening keeps the invariant (savepoints exactly below depth one, names of generated shape) and only extends the state |
| Transitions.CommitKeepsValid | src/TransactionContext.ts:57-69 | commit keeps the invariant, never reopens a closed context, and only appends to the log |
| Transitions.RollbackKeepsValid | src/TransactionContext.ts:71-84 | rollback keeps the invariant, never reopens a closed context, and only appends to the log |
| Transitions.FinishScopedKeepsValid | src/TransactionContext.ts:43-54 | what scoped mode does after the body keeps the invariant and only extends the state |
| Transitions.FinishLegacyKeepsValid | src/index.ts:29-33 | what the older `transaction` does after the body keeps the invariant and only extends the state |
| Programs.Exec | src/create-proxy.ts:15-24 | running caller code through handles never removes a context, keeps the client, only appends to the log, and on a normal end only adds handles to those the code held |
| Programs.Transaction | src/TransactionContext.ts:20-55 | the opening statement is the first thing sent; explicit mode sends nothing else, adds exactly the new ACTIVE child (the opener as parent, a savepoint name exactly when the opener has a parent) and changes no existing context, and returns a handle on that child; scoped mode ends with a handle on the caller's context |
| Programs.LegacyTransaction | src/index.ts:18-34 | the opening statement is the first thing sent; without a body nothing else is sent and the call fails with a TypeError once the child is open |
| Programs.ExecKeepsValid | src/TransactionContext.ts:20-84 | whatever caller code does, in either variant, the state stays valid, closed contexts stay closed, the log is only appended to, and every handle the code holds stays usable |
| Programs.TransactionKeepsValid | src/TransactionContext.ts:20-55 | `transaction` in both modes keeps the invariant and returns a usable handle |
| Programs.LegacyTransactionKeepsValid | src/index.ts:18-34 | the older `transaction` keeps the invariant and only extends the state |
| Proxy.Get | src/create-proxy.ts:8-26 | the handle behaves as the merged interface in which client members shadow context members: a name resolves exactly when the merged interface has it, to a bound function exactly when that is a method, on the client exactly when the client defines it and otherwise on the handle's context; the context's names include those inherited from `Object.prototype` |
| Proxy.ClientMembersIgnoreContext | src/create-proxy.ts:15-18 | a client member resolves identically through every handle on that client, whatever context the handle carries |
| Proxy.ControlReachesContext | src/create-proxy.ts:19-24 | `transaction`, `commit` and `rollback`, when the client lacks them, reach the handle's own context, bound to it |
| Proxy.ContextFieldsThrow | src/create-proxy.ts:19-24 | the context's fields are found through the handle, but binding them throws |
| Proxy.InheritedMembersReachContext | src/create-proxy.ts:19-24 | a name every object inherits, such as `toString`, reaches the handle's context, bound to it, when the client does not define it |
| Lifecycle.NestedCommitRepeats | src/TransactionContext.ts:61-63 | a nested commit can be repeated: each call is accepted and sends `RELEASE SAVEPOINT` of the same name, and the context stays ACTIVE |
| Lifecycle.PlainCommitIsFinal | src/TransactionContext.ts:57-69 | after an accepted `COMMIT`, a second commit and a rollback are both refused with their own errors and send nothing |
| Lifecycle.RollbackIsFinal | src/TransactionContext.ts:71-84 | after an accepted rollback at any depth, commit and rollback are both refused with their own errors and send nothing |
| Lifecycle.RollbackAfterNestedCommit | src/index.ts:40-58 | a rollback after a nested commit is still accepted, sending `ROLLBACK TO SAVEPOINT` after the `RELEASE SAVEPOINT`, and closes the context |
| Lifecycle.SentStatement | src/TransactionContext.ts:61-83 | on an ACTIVE context, commit and rollback send their branch's statement even if the connection rejects it, and a rejected statement leaves every status unchanged |
| Lifecycle.DepthNumbering | src/TransactionContext.ts:25-68 | from a fresh wrapper: `BEGIN`, then a savepoint one level down, whose commit releases it and returns depth one, whose `COMMIT` returns the still ACTIVE wrapper |
| ScopedMode.LegacyBodyErrorPropagates | src/index.ts:29 | in the older copy a body error propagates unchanged and nothing follows the body's own statements: no rollback and no commit |
| ScopedMode.ScopedRethrows | src/TransactionContext.ts:43-48 | for every body that ends in an error while its child is still ACTIVE and whose rollback is accepted: exactly the child's rollback statement follows the body's statements, the child is CANCELLED, no other context changes, and the body's own error is rethrown; from a valid state that statement matches the child's depth |
| ScopedMode.ScopedThrowsAtOnce | src/TransactionContext.ts:43-48 | a body that throws at once: the log gains the opening statement and the child's rollback statement, the child is CANCELLED and the error is rethrown |
| ScopedMode.ScopedLosesBodyError | src/TransactionContext.ts:45-47 | a body that rolls its child back and then throws ends with the "not active" rollback error instead of its own, and the rollback statement is sent once |
| ScopedMode.ScopedRecommits | src/TransactionContext.ts:50-52 | below a context with a parent, a body that commits its child explicitly causes a second `RELEASE SAVEPOINT` of the same name, and the call returns the opener |
| ScopedMode.ScopedAfterPlainCommit | src/TransactionContext.ts:50-54 | directly below the wrapper, a body's explicit commit sends `COMMIT` and closes the child, so scoped mode sends nothing more |
| Scenarios.SingleLevelCommit | src/index.test.ts:5-13 | the test sends `BEGIN`, its two table statements, the insert, then `COMMIT` |
| Scenarios.NestedCommits | src/index.test.ts:15-36 | three savepoints below the first level, each sent, filled and released in turn, then `COMMIT` |
| Scenarios.SimpleRollback | src/index.test.ts:38-49 | the table statements outside any transaction, then `BEGIN`, the insert and `ROLLBACK`, and no commit after it |
| Scenarios.NestedRollback | src/index.test.ts:51-65 | the savepoint is rolled back to and not released, and the first level still sends `COMMIT` |
| Scenarios.NestedRollbackThenContinue | src/index.test.ts:67-85 | after `BEGIN` and the table statements: a savepoint rolled back to, a second savepoint released, then `COMMIT` |

## Left out

- The `pg` client and SQL execution. A query is a log append that the
  `World` may reject by position. The effect of statements on table rows is
  not modelled, so the row counts the tests check are not restated. The
  scenario lemmas state the exact statement stream instead.
- `randomUUID` is an input: `World.uuid`, indexed by the id of the context
  being opened. After a rejected `SAVEPOINT` no context is added, so the
  next opening reads the same UUID, where the code would draw a new one. Uniqueness of savepoint names is not proved, because it
  depends on that source. `SavepointNames.DistinctUuidsDistinctNames`
  reduces it to distinct UUIDs.
- The JavaScript `Proxy`/`bind` machinery. A member lookup is a pure function
  over the names the client and the context offer, and caller code in
  `Programs.Exec` sends queries to the client and transaction calls to the
  context. This assumes the `pg` client defines none of `transaction`,
  `commit` and `rollback`.
- async/await. Everything runs on one serial call stack, as sequential steps.
- `Programs.Exec` reports a handle number the code never obtained as a
  ReferenceError. That is a modelling device, and valid states never reach
  it for handles the code holds (`Programs.ExecKeepsValid`).
- Caller bodies are the small `Cmd` language: queries, `transaction`,
  `commit`, `rollback`, throw, catch, sequencing. Loops and arbitrary
  JavaScript in bodies are not modelled.
- The text of the two "not active" errors. They are the constructors
  `CommitNotActive` and `RollbackNotActive`.
- The client's member names are an input to `Proxy.Get`. A real `pg`
  client inherits `Object.prototype` too, so its shape includes those
  names, and they then resolve on the client.
- Test utilities (`getClient`, `checkRows`), the vitest configuration and
  src/types.ts are not part of this model. `createTable` and `insertRow`
  appear only as the statements they send.
- The scenario lemmas assume a connection that accepts every statement, as
  the live-database tests do. What rejected statements do is stated by the
  transition contracts and `Lifecycle.SentStatement`.
