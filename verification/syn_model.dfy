/**
 An abstract view of the parsed Rust items that the `linked::object`
 attribute works on: the parts of the syntax tree the expansion reads or
 writes (item kind, name, generics, where-clause, fields), with types and
 bounds kept as opaque text where the expansion only copies them.

 `SplitForImpl` models the generics split that the expansion asks the parser
 library for: the parameter list of an `impl` header (declared parameters
 with their bounds, defaults dropped), the argument list that names the type
 (parameter names only) and the where-clause, unchanged.
 */
module Syn {

  datatype Option<+T> = None | Some(value: T)

  datatype Result<+T, +E> = Ok(value: T) | Err(error: E)

  /** A position in the macro input that an error message points at. */
  type Span = nat

  /** A parse or validation error: a message attached to a span. */
  datatype Error = Error(span: Span, message: string)

  /** A type as written in the source. Paths are structured because the
      expansion builds some of its own; anything else is kept verbatim. */
  datatype Type =
    | SelfType
    | Path(path: string, args: seq<GenericArg>)
    | Verbatim(text: string)

  /** One argument in a path's angle brackets: `'a`, `T` or a const value. */
  datatype GenericArg =
    | LifetimeArg(lifetime: string)
    | TypeArg(ty: Type)
    | ConstArg(expr: string)

  /** One declared generic parameter, with its bounds and optional default. */
  datatype GenericParam =
    | LifetimeParam(name: string, bounds: seq<string>)
    | TypeParam(name: string, bounds: seq<string>, default: Option<string>)
    | ConstParam(name: string, ty: string, default: Option<string>)
  {
    /** Whether the parameter carries a default value (`T = u32`, `N: usize = 4`). */
    predicate HasDefault() {
      match this
      case LifetimeParam(_, _) => false
      case TypeParam(_, _, d) => d.Some?
      case ConstParam(_, _, d) => d.Some?
    }

    /** What the parameter is constrained by: lifetime or trait bounds, or a const's type. */
    function Constraint(): seq<string> {
      match this
      case LifetimeParam(_, b) => b
      case TypeParam(_, b, _) => b
      case ConstParam(_, t, _) => [t]
    }
  }

  /** The generics of an item: parameters in declaration order and the
      predicates of its where-clause (empty when there is none). */
  datatype Generics = Generics(params: seq<GenericParam>, whereClause: seq<string>)

  /** A named field: outer attributes, visibility, name and type. */
  datatype Field = Field(attrs: seq<string>, vis: string, name: string, ty: Type)

  /** The three shapes of struct body. */
  datatype Fields =
    | Named(named: seq<Field>)
    | Unnamed(unnamed: seq<Type>)
    | Unit

  datatype ItemStruct = ItemStruct(
    attrs: seq<string>,
    vis: string,
    name: string,
    generics: Generics,
    fields: Fields,
    span: Span)

  /** A parsed top-level item. Only structs matter to the expansion; every
      other item kind is kept as its kind and span. */
  datatype Item =
    | Struct(item: ItemStruct)
    | Enum(name: string, generics: Generics, variants: seq<string>, enumSpan: Span)
    | OtherItem(kind: string, otherSpan: Span)

  /** The span of the whole item, used to place an error about it. */
  function ItemSpan(x: Item): Span {
    match x
    case Struct(s) => s.span
    case Enum(_, _, _, sp) => sp
    case OtherItem(_, sp) => sp
  }

  /** A parameter as it appears in an `impl<...>` header: name and
      constraint kept, default dropped. */
  function ImplParam(p: GenericParam): (q: GenericParam)
    ensures q.name == p.name && q.Constraint() == p.Constraint()
    ensures !q.HasDefault()
    ensures q.LifetimeParam? == p.LifetimeParam? && q.TypeParam? == p.TypeParam?
    ensures !p.HasDefault() ==> q == p
  {
    match p
    case LifetimeParam(n, b) => LifetimeParam(n, b)
    case TypeParam(n, b, _) => TypeParam(n, b, None)
    case ConstParam(n, t, _) => ConstParam(n, t, None)
  }

  /** A parameter as an argument naming the generic type: its name alone. */
  function ParamArg(p: GenericParam): (a: GenericArg)
    ensures a.LifetimeArg? <==> p.LifetimeParam?
    ensures a.LifetimeArg? ==> a.lifetime == p.name
    ensures a.TypeArg? <==> p.TypeParam?
    ensures a.TypeArg? ==> a.ty == Path(p.name, [])
    ensures a.ConstArg? ==> a.expr == p.name
  {
    match p
    case LifetimeParam(n, _) => LifetimeArg(n)
    case TypeParam(n, _, _) => TypeArg(Path(n, []))
    case ConstParam(n, _, _) => ConstArg(n)
  }

  /** The three pieces an `impl` block for a generic type is built from. */
  datatype ImplSplit = ImplSplit(
    implParams: seq<GenericParam>,
    typeArgs: seq<GenericArg>,
    whereClause: seq<string>)

  /** Splits generics into impl parameters, type arguments and where-clause. */
  function SplitForImpl(g: Generics): (r: ImplSplit)
    ensures |r.implParams| == |g.params| && |r.typeArgs| == |g.params|
    ensures forall i :: 0 <= i < |g.params| ==>
      r.implParams[i] == ImplParam(g.params[i]) && r.typeArgs[i] == ParamArg(g.params[i])
    ensures r.whereClause == g.whereClause
  {
    ImplSplit(
      seq(|g.params|, i requires 0 <= i < |g.params| => ImplParam(g.params[i])),
      seq(|g.params|, i requires 0 <= i < |g.params| => ParamArg(g.params[i])),
      g.whereClause)
  }

  /** The type named with its own parameters: `Foo<'y, T, X>`, or plain `Foo`. */
  function SelfPath(name: string, g: Generics): (t: Type)
    ensures t.Path? && t.path == name && |t.args| == |g.params|
    ensures forall i :: 0 <= i < |g.params| ==> t.args[i] == ParamArg(g.params[i])
  {
    Path(name, SplitForImpl(g).typeArgs)
  }
}
