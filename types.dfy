/** Shared primitives of the dependency-injection model: an optional value,
    an abstract stand-in for Go's reflected types, tag symbols, scopes and
    source locations. */
module Types {

  /** Go's nil-able values (`*symbolSet`, `Scope`, `*Location`, `error`). */
  datatype Option<+T> = None | Some(value: T) {
    function GetOr(default: T): T {
      match this
      case Some(v) => v
      case None => default
    }
  }

  /** A reflected Go type. Named types carry the names of their methods, which
      is all the model needs to decide whether a type implements an interface. */
  datatype Type =
    | Int
    | Str
    | Rune
    | Slice(elem: Type)
    | Ptr(target: Type)
    | MapOf(key: Type, value: Type)
    | Struct(name: string, methods: set<string>)
    | Iface(name: string, methods: set<string>)
    | Fn(params: seq<Type>, rets: seq<Type>)

  /** The built-in `error` interface. */
  const ErrorType: Type := Iface("error", {"Error"})

  /** The methods callable on a value of type `t`. */
  function MethodSet(t: Type): set<string> {
    match t
    case Struct(_, ms) => ms
    case Ptr(Struct(_, ms)) => ms
    case Iface(_, ms) => ms
    case _ => {}
  }

  /** `t` implements the interface `iface` when it has every method `iface` names. */
  predicate Implements(t: Type, iface: Type)
    requires iface.Iface?
  {
    iface.methods <= MethodSet(t)
  }

  /** A value of type `t` can be exposed as type `u`: the same type, or an
      interface that `t` implements. */
  predicate AssignableTo(t: Type, u: Type) {
    t == u || (u.Iface? && Implements(t, u))
  }

  /** An empty interface (such as `interface{}`) accepts every type. */
  lemma EmptyInterfaceAcceptsAll(t: Type, name: string)
    ensures AssignableTo(t, Iface(name, {}))
  {
  }

  /** A type without an `Error` method cannot be exposed as `error`. */
  lemma ErrorNeedsErrorMethod(t: Type)
    requires t != ErrorType
    ensures AssignableTo(t, ErrorType) <==> "Error" in MethodSet(t)
  {
  }

  /** A tag; identity is the `id`, the name is only a label. */
  datatype Symbol = Symbol(id: nat, name: string)

  /** A lifecycle scope; `GlobalScope` is the default. */
  datatype Scope = GlobalScope | NamedScope(id: nat, name: string)

  /** A source position used for diagnostics. */
  datatype Location = Location(file: string, line: nat)

  /** The set built from the given elements, added to `existing` (nil reads as empty). */
  function AddAll<X>(existing: Option<set<X>>, xs: seq<X>): (r: Option<set<X>>)
    ensures r.Some?
    ensures forall x :: x in xs ==> x in r.value
    ensures existing.Some? ==> existing.value <= r.value
    ensures forall x :: x in r.value ==> x in xs || (existing.Some? && x in existing.value)
  {
    Some(existing.GetOr({}) + set x | x in xs)
  }

  /** A nil set given one element becomes exactly that element's set. */
  lemma AddOneToNil<X>(x: X)
    ensures AddAll(None, [x]) == Some({x})
  {
    var r := AddAll(None, [x]).value;
    assert x in r;
    forall y | y in r ensures y == x {
      assert y in [x];
    }
    assert r == {x};
  }
}
