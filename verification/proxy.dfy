/** `createProxy(client, transactionContext)`: the handle answers a member
    name from the client first, then from the context, else with undefined.
    A member found is bound to the object it was found on; a member that is
    not a function cannot be bound, and reading it throws a TypeError. */
module Proxy {
  import opened Contexts

  datatype MemberKind = Method | Field

  /** The member names an object answers to (`prop in obj`, prototype chain
      included) and whether each holds a function. */
  type Shape = map<string, MemberKind>

  /** What every object inherits from `Object.prototype`: its methods, and
      the `__proto__` accessor, whose value is an object, not a function. */
  const ObjectPrototypeShape: Shape := map[
    "constructor" := Method, "toString" := Method, "toLocaleString" := Method, "valueOf" := Method,
    "hasOwnProperty" := Method, "isPrototypeOf" := Method, "propertyIsEnumerable" := Method,
    "__defineGetter__" := Method, "__defineSetter__" := Method,
    "__lookupGetter__" := Method, "__lookupSetter__" := Method, "__proto__" := Field]

  /** What `prop in transactionContext` finds on a `TransactionContext`: the
      names inherited from `Object.prototype`, the three methods on its own
      prototype (whose `constructor`, a function like the inherited one,
      needs no entry of its own), and the four instance fields
      (present even when they hold `undefined`). */
  const ContextShape: Shape := ObjectPrototypeShape + map[
    "transaction" := Method, "commit" := Method, "rollback" := Method,
    "status" := Field, "client" := Field, "parentTransaction" := Field, "activeSavePoint" := Field]

  /** The object a resolved member is bound to. */
  datatype Receiver = ClientObject(client: ClientRef) | ContextObject(ctx: CtxId)

  datatype Resolution =
    /** `obj[prop].bind(obj)` */
    | Bound(receiver: Receiver, name: string)
    /** `obj[prop]` is not a function, so `.bind` throws a TypeError */
    | BindFails(receiver: Receiver)
    | Undefined

  function Found(receiver: Receiver, kind: MemberKind, prop: string): Resolution {
    if kind == Method then Bound(receiver, prop) else BindFails(receiver)
  }

  /** The members a handle offers, as one merged interface in which the
      client's members replace the context's members of the same name. */
  function Interface(clientShape: Shape): (m: Shape)
    ensures m.Keys == clientShape.Keys + ContextShape.Keys
  {
    ContextShape + clientShape
  }

  /** The proxy's `get` trap for handle `h` whose client has `clientShape`.
      It behaves as the merged interface: a name resolves exactly when the
      interface has it, to a bound function exactly when the interface holds
      a method under it, and on the client exactly when the client defines
      it (otherwise on the handle's own context). */
  function Get(clientShape: Shape, h: Handle, prop: string): (r: Resolution)
    ensures r != Undefined <==> prop in Interface(clientShape)
    ensures r.Bound? <==> prop in Interface(clientShape) && Interface(clientShape)[prop] == Method
    ensures r.Bound? ==> r.name == prop
    ensures r != Undefined ==>
              r.receiver == (if prop in clientShape then ClientObject(h.client) else ContextObject(h.ctx))
  {
    if prop in clientShape then Found(ClientObject(h.client), clientShape[prop], prop)
    else if prop in ContextShape then Found(ContextObject(h.ctx), ContextShape[prop], prop)
    else Undefined
  }

  /** A member of the client is reached identically through every handle
      on that client, whatever context the handle is bound to. */
  lemma ClientMembersIgnoreContext(clientShape: Shape, h1: Handle, h2: Handle, prop: string)
    requires h1.client == h2.client
    requires prop in clientShape
    ensures Get(clientShape, h1, prop) == Get(clientShape, h2, prop)
    ensures Get(clientShape, h1, prop) != Undefined
  {
  }

  /** With a client that does not define them, `transaction`, `commit` and
      `rollback` reach the handle's own context, bound to it. */
  lemma ControlReachesContext(clientShape: Shape, h: Handle, prop: string)
    requires prop in {"transaction", "commit", "rollback"}
    requires prop !in clientShape
    ensures Get(clientShape, h, prop) == Bound(ContextObject(h.ctx), prop)
  {
  }

  /** The context's fields are visible through the handle but cannot be
      read through it: `status`, `client`, `parentTransaction` and
      `activeSavePoint` throw unless the client shadows them. */
  lemma ContextFieldsThrow(clientShape: Shape, h: Handle, prop: string)
    requires prop in {"status", "client", "parentTransaction", "activeSavePoint"}
    requires prop !in clientShape
    ensures Get(clientShape, h, prop) == BindFails(ContextObject(h.ctx))
  {
  }

  /** A name every object inherits, such as `toString`, reaches the handle's
      context when the client does not define it. */
  lemma InheritedMembersReachContext(clientShape: Shape, h: Handle, prop: string)
    requires prop in ObjectPrototypeShape && ObjectPrototypeShape[prop] == Method
    requires prop !in clientShape
    ensures Get(clientShape, h, prop) == Bound(ContextObject(h.ctx), prop)
  {
  }
}
