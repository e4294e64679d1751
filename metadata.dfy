/**
 * The reflection metadata table the decorators write and `BaseSocket.register` reads:
 * entries keyed by a key string, a target (a handler class or its prototype) and an
 * optional property name. The decorators build their key strings by concatenation
 * (`middlewares:<method>`, `eventValidator:<method>`); the lemmas here show those keys
 * are injective and that the key families never collide.
 */
module Metadata {
  import opened Wrappers
  import opened Dispatch

  /** A decorator target: the handler class itself, or its prototype (for method decorators). */
  datatype Target = ClassTarget(cls: string) | PrototypeTarget(cls: string)

  datatype MetaKey = MetaKey(key: string, target: Target, property: Option<string>)

  /** The values the decorators store: a namespace name, a middleware list, a schema, the event marker. */
  datatype MetaValue =
    | Name(name: string)
    | Middlewares(list: seq<MiddlewareId>)
    | Schema(schema: SchemaId)
    | Marker(flag: bool)

  type Table = map<MetaKey, MetaValue>

  const NamespaceKey: string := "namespace"
  const MiddlewaresKey: string := "middlewares"
  const IsSocketEventKey: string := "isSocketEvent"
  const EventMiddlewaresPrefix: string := "middlewares:"
  const EventValidatorPrefix: string := "eventValidator:"

  /** The key string of an event's middleware list. */
  function EventMiddlewaresKey(member: string): string
  {
    EventMiddlewaresPrefix + member
  }

  /** The key string of an event's schema. */
  function EventValidatorKey(member: string): string
  {
    EventValidatorPrefix + member
  }

  /** The entry `@SocketChannel` writes on class `cls`. */
  function NamespaceEntry(cls: string): MetaKey
  {
    MetaKey(NamespaceKey, ClassTarget(cls), None)
  }

  /** The entry `@SocketMiddleware` writes on class `cls`. */
  function ClassMiddlewaresEntry(cls: string): MetaKey
  {
    MetaKey(MiddlewaresKey, ClassTarget(cls), None)
  }

  /** The entry `@EventMiddleware` writes for method `member` of class `cls`. */
  function EventMiddlewaresEntry(cls: string, member: string): MetaKey
  {
    MetaKey(EventMiddlewaresKey(member), PrototypeTarget(cls), None)
  }

  /** The entry `@EventValidator` writes for method `member` of class `cls`. */
  function ValidatorEntry(cls: string, member: string): MetaKey
  {
    MetaKey(EventValidatorKey(member), PrototypeTarget(cls), None)
  }

  /** The entry `@SocketEvent` writes for method `member` of class `cls`: scoped by the property, not by the key string. */
  function MarkerEntry(cls: string, member: string): MetaKey
  {
    MetaKey(IsSocketEventKey, PrototypeTarget(cls), Some(member))
  }

  /** `Reflect.getMetadata(key, target, property)` on the table: the value stored under exactly that entry. */
  function GetMetadata(t: Table, key: string, target: Target, property: Option<string>): Option<MetaValue>
  {
    var k := MetaKey(key, target, property);
    if k in t then Some(t[k]) else None
  }

  /** Distinct methods give distinct middleware keys. */
  lemma EventMiddlewaresKeyInjective(p: string, q: string)
    ensures EventMiddlewaresKey(p) == EventMiddlewaresKey(q) <==> p == q
  {
    if EventMiddlewaresKey(p) == EventMiddlewaresKey(q) {
      assert p == EventMiddlewaresKey(p)[|EventMiddlewaresPrefix|..];
      assert q == EventMiddlewaresKey(q)[|EventMiddlewaresPrefix|..];
    }
  }

  /** Distinct methods give distinct schema keys. */
  lemma EventValidatorKeyInjective(p: string, q: string)
    ensures EventValidatorKey(p) == EventValidatorKey(q) <==> p == q
  {
    if EventValidatorKey(p) == EventValidatorKey(q) {
      assert p == EventValidatorKey(p)[|EventValidatorPrefix|..];
      assert q == EventValidatorKey(q)[|EventValidatorPrefix|..];
    }
  }

  /** No key string of one family equals a key string of another. */
  lemma KeyFamiliesDisjoint(p: string, q: string)
    ensures EventMiddlewaresKey(p) != EventValidatorKey(q)
    ensures EventMiddlewaresKey(p) !in {NamespaceKey, MiddlewaresKey, IsSocketEventKey}
    ensures EventValidatorKey(q) !in {NamespaceKey, MiddlewaresKey, IsSocketEventKey}
  {
    assert EventMiddlewaresKey(p)[0] == 'm';
    assert EventValidatorKey(q)[0] == 'e';
    assert |EventMiddlewaresKey(p)| > |MiddlewaresKey|;
    assert |EventValidatorKey(q)| > |NamespaceKey|;
    assert |EventValidatorKey(q)| > |MiddlewaresKey|;
    assert EventMiddlewaresKey(p)[1] == 'i';
  }

  /**
   * The entries the five decorators write are pairwise distinct across decorators, and
   * within one decorator distinct (class, method) pairs give distinct entries.
   */
  lemma DecoratorEntriesDistinct(c1: string, p1: string, c2: string, p2: string)
    ensures NamespaceEntry(c1) != ClassMiddlewaresEntry(c2)
    ensures NamespaceEntry(c1) == NamespaceEntry(c2) <==> c1 == c2
    ensures ClassMiddlewaresEntry(c1) == ClassMiddlewaresEntry(c2) <==> c1 == c2
    ensures EventMiddlewaresEntry(c1, p1) == EventMiddlewaresEntry(c2, p2) <==> c1 == c2 && p1 == p2
    ensures ValidatorEntry(c1, p1) == ValidatorEntry(c2, p2) <==> c1 == c2 && p1 == p2
    ensures MarkerEntry(c1, p1) == MarkerEntry(c2, p2) <==> c1 == c2 && p1 == p2
    ensures EventMiddlewaresEntry(c1, p1) != ValidatorEntry(c2, p2)
    ensures MarkerEntry(c1, p1) !in {NamespaceEntry(c2), ClassMiddlewaresEntry(c2), EventMiddlewaresEntry(c2, p2), ValidatorEntry(c2, p2)}
    ensures NamespaceEntry(c1) !in {EventMiddlewaresEntry(c2, p2), ValidatorEntry(c2, p2)}
    ensures ClassMiddlewaresEntry(c1) !in {EventMiddlewaresEntry(c2, p2), ValidatorEntry(c2, p2)}
  {
    EventMiddlewaresKeyInjective(p1, p2);
    EventValidatorKeyInjective(p1, p2);
    KeyFamiliesDisjoint(p1, p2);
  }

  /** The kind of value an entry may hold, determined by its key alone. */
  datatype Kind = NameKind | ListKind | SchemaKind | MarkerKind | NoKind

  predicate HasPrefix(s: string, prefix: string)
  {
    |prefix| <= |s| && s[..|prefix|] == prefix
  }

  function KindOf(k: MetaKey): Kind
  {
    if k.property.Some? then MarkerKind
    else if k.key == NamespaceKey then NameKind
    else if k.key == MiddlewaresKey || HasPrefix(k.key, EventMiddlewaresPrefix) then ListKind
    else if HasPrefix(k.key, EventValidatorPrefix) then SchemaKind
    else NoKind
  }

  predicate Fits(k: MetaKey, v: MetaValue)
  {
    match KindOf(k)
    case NameKind => v.Name?
    case ListKind => v.Middlewares?
    case SchemaKind => v.Schema?
    case MarkerKind => v.Marker?
    case NoKind => false
  }

  /** Every entry holds the kind of value its key family stands for, as the decorators' types guarantee. */
  ghost predicate WellTyped(t: Table)
  {
    forall k :: k in t ==> Fits(k, t[k])
  }

  /** Each decorator's entry has the key family of the value that decorator writes. */
  lemma DecoratorEntriesFit(cls: string, member: string, name: string, mws: seq<MiddlewareId>, s: SchemaId)
    ensures Fits(NamespaceEntry(cls), Name(name))
    ensures Fits(ClassMiddlewaresEntry(cls), Middlewares(mws))
    ensures Fits(EventMiddlewaresEntry(cls, member), Middlewares(mws))
    ensures Fits(ValidatorEntry(cls, member), Schema(s))
    ensures Fits(MarkerEntry(cls, member), Marker(true))
    ensures !Fits(ValidatorEntry(cls, member), Middlewares(mws))
  {
    KeyFamiliesDisjoint(member, member);
    assert HasPrefix(EventMiddlewaresKey(member), EventMiddlewaresPrefix) by {
      assert EventMiddlewaresKey(member)[..|EventMiddlewaresPrefix|] == EventMiddlewaresPrefix;
    }
    assert HasPrefix(EventValidatorKey(member), EventValidatorPrefix) by {
      assert EventValidatorKey(member)[..|EventValidatorPrefix|] == EventValidatorPrefix;
    }
    assert !HasPrefix(EventValidatorKey(member), EventMiddlewaresPrefix) by {
      assert EventValidatorKey(member)[0] == 'e';
    }
  }

  /** The global metadata registry that `Reflect.defineMetadata` writes into. */
  class MetadataStore {
    var table: Table

    ghost predicate Valid()
      reads this
    {
      WellTyped(table)
    }

    constructor ()
      ensures Valid() && table == map[]
    {
      table := map[];
    }

    /** `Reflect.defineMetadata(key, value, target, property)`: sets exactly one entry. */
    method DefineMetadata(key: string, value: MetaValue, target: Target, property: Option<string>)
      requires Valid() && Fits(MetaKey(key, target, property), value)
      modifies this
      ensures Valid()
      ensures table == old(table)[MetaKey(key, target, property) := value]
    {
      table := table[MetaKey(key, target, property) := value];
    }
  }
}
