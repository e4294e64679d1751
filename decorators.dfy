/**
 * The five decorators. Each one, applied to a handler class (or to one of its methods,
 * whose decorator target is the class's prototype), writes exactly one entry into the
 * metadata registry and nothing else. The targets are named by class name.
 */
module Decorators {
  import opened Wrappers
  import opened Dispatch
  import opened Metadata

  /** `@SocketChannel(name)` on class `cls`: stores `name` under `namespace`, without checking it. */
  method SocketChannel(store: MetadataStore, name: string, cls: string)
    requires store.Valid()
    modifies store
    ensures store.Valid()
    ensures store.table == old(store.table)[NamespaceEntry(cls) := Name(name)]
  {
    DecoratorEntriesFit(cls, "", name, [], "");
    store.DefineMetadata(NamespaceKey, Name(name), ClassTarget(cls), None);
  }

  /** `@SocketMiddleware(...middlewares)` on class `cls`: stores the list, in argument order, under `middlewares`. */
  method SocketMiddleware(store: MetadataStore, middlewares: seq<MiddlewareId>, cls: string)
    requires store.Valid()
    modifies store
    ensures store.Valid()
    ensures store.table == old(store.table)[ClassMiddlewaresEntry(cls) := Middlewares(middlewares)]
  {
    DecoratorEntriesFit(cls, "", "", middlewares, "");
    store.DefineMetadata(MiddlewaresKey, Middlewares(middlewares), ClassTarget(cls), None);
  }

  /** `@EventMiddleware(...middlewares)` on method `member` of `cls`: stores the list under `middlewares:<member>` on the prototype. */
  method EventMiddleware(store: MetadataStore, middlewares: seq<MiddlewareId>, cls: string, member: string)
    requires store.Valid()
    modifies store
    ensures store.Valid()
    ensures store.table == old(store.table)[EventMiddlewaresEntry(cls, member) := Middlewares(middlewares)]
  {
    DecoratorEntriesFit(cls, member, "", middlewares, "");
    store.DefineMetadata(EventMiddlewaresKey(member), Middlewares(middlewares), PrototypeTarget(cls), None);
  }

  /** `@EventValidator(schema)` on method `member` of `cls`: stores the schema under `eventValidator:<member>` on the prototype. */
  method EventValidator(store: MetadataStore, schema: SchemaId, cls: string, member: string)
    requires store.Valid()
    modifies store
    ensures store.Valid()
    ensures store.table == old(store.table)[ValidatorEntry(cls, member) := Schema(schema)]
  {
    DecoratorEntriesFit(cls, member, "", [], schema);
    store.DefineMetadata(EventValidatorKey(member), Schema(schema), PrototypeTarget(cls), None);
  }

  /** `@SocketEvent()` on method `member` of `cls`: sets `isSocketEvent` to true for (prototype, member). */
  method SocketEvent(store: MetadataStore, cls: string, member: string)
    requires store.Valid()
    modifies store
    ensures store.Valid()
    ensures store.table == old(store.table)[MarkerEntry(cls, member) := Marker(true)]
  {
    DecoratorEntriesFit(cls, member, "", [], "");
    store.DefineMetadata(IsSocketEventKey, Marker(true), PrototypeTarget(cls), Some(member));
  }
}
