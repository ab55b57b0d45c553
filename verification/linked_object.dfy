/**
 The expansion of the `linked::object` attribute.

 The attribute accepts only a struct with named fields. It re-emits that
 struct with one hidden field, `__private_linked_link: Link<Self>`, appended
 after the author's fields, and emits three impls for it, each carrying the
 struct's own generics and where-clause:

 - `linked::Object`, whose `family()` reads the link field;
 - `Clone`, whose `clone()` delegates to `linked::__private::clone(self)`
   rather than copying fields;
 - `From<Family<Self>>`, whose `from()` delegates to `family.__private_into()`.

 Anything else (an enum, another item kind, a tuple or unit struct, input that
 does not parse) is answered with the original input plus a compile error.
 Parsing is a parameter of `Entrypoint`; output is a structured expansion
 rather than tokens.
 */
module LinkedObject {
  import opened Syn

  const NotAStructMessage := "the `linked::object` attribute must be applied to a struct"
  const NotNamedFieldsMessage :=
    "the `linked::object` attribute must be applied to a struct with named fields"

  const LinkFieldName := "__private_linked_link"
  const LinkPath := "::linked::__private::Link"
  const FamilyPath := "::linked::Family"
  const PrivateClonePath := "::linked::__private::clone"

  /** `Link<T>` and `Family<T>`. */
  function LinkOf(t: Type): Type { Path(LinkPath, [TypeArg(t)]) }
  function FamilyOf(t: Type): Type { Path(FamilyPath, [TypeArg(t)]) }

  /** The hidden field that ties every instance to its family. */
  function LinkField(): Field {
    Field(["doc(hidden)"], "", LinkFieldName, LinkOf(SelfType))
  }

  /** The small expression language of the generated method bodies. */
  datatype Expr =
    | SelfValue
    | Var(name: string)
    | FieldAccess(base: Expr, field: string)
    | MethodCall(receiver: Expr, methodName: string)
    | Call(callee: string, args: seq<Expr>)

  datatype Receiver = RefSelf | NoReceiver

  datatype FnParam = FnParam(name: string, ty: Type)

  datatype Fn = Fn(name: string, receiver: Receiver, params: seq<FnParam>, ret: Type, body: Expr)

  datatype Trait = ObjectTrait | CloneTrait | FromTrait(source: Type)

  /** `impl<params> Trait for SelfTy where ... { fn ... }` */
  datatype Impl = Impl(
    params: seq<GenericParam>,
    implements: Trait,
    selfTy: Type,
    whereClause: seq<string>,
    member: Fn)

  /** The rewritten struct followed by the generated impls. */
  datatype Expansion = Expansion(item: ItemStruct, impls: seq<Impl>)

  /** What the attribute emits: an expansion, or the untouched input together
      with a compile error. `Tokens` stands for the raw token stream. */
  datatype Output<Tokens> =
    | Expanded(expansion: Expansion)
    | InputWithError(input: Tokens, error: Error)

  /** The output carries a compile error. */
  predicate ContainsCompileError<Tokens>(o: Output<Tokens>) {
    o.InputWithError?
  }

  /** The names of the fields an expression reads through any base. */
  function FieldsRead(e: Expr): set<string>
    decreases e
  {
    match e
    case SelfValue => {}
    case Var(_) => {}
    case FieldAccess(b, f) => FieldsRead(b) + {f}
    case MethodCall(r, _) => FieldsRead(r)
    case Call(_, args) => set i, f | 0 <= i < |args| && f in FieldsRead(args[i]) :: f
  }

  /** `fn family(&self) -> Family<Self> { self.__private_linked_link.family() }` */
  function FamilyFn(): Fn {
    Fn("family", RefSelf, [], FamilyOf(SelfType),
       MethodCall(FieldAccess(SelfValue, LinkFieldName), "family"))
  }

  /** `fn clone(&self) -> Self { ::linked::__private::clone(self) }` */
  function CloneFn(): Fn {
    Fn("clone", RefSelf, [], SelfType, Call(PrivateClonePath, [SelfValue]))
  }

  /** `fn from(family: Family<Name<..>>) -> Self { family.__private_into() }` */
  function FromFn(selfTy: Type): Fn {
    Fn("from", NoReceiver, [FnParam("family", FamilyOf(selfTy))], SelfType,
       MethodCall(Var("family"), "__private_into"))
  }

  /** The impls a linked object type `name` with generics `g` must have,
      described piece by piece: `Object`, `Clone` and `From<Family<..>>` in
      that order, each for the type named with its own parameters, with the
      impl form of its parameters and its where-clause, and each holding the
      one delegating method that trait needs. */
  predicate IsGeneratedImplsFor(impls: seq<Impl>, name: string, g: Generics) {
    var selfTy := SelfPath(name, g);
    && |impls| == 3
    && (forall k :: 0 <= k < |impls| ==>
          && impls[k].params == SplitForImpl(g).implParams
          && impls[k].selfTy == selfTy
          && impls[k].whereClause == g.whereClause)
    && impls[0].implements == ObjectTrait
    && impls[0].member.name == "family"
    && impls[0].member.receiver == RefSelf
    && impls[0].member.params == []
    && impls[0].member.ret == FamilyOf(SelfType)
    && impls[0].member.body == MethodCall(FieldAccess(SelfValue, LinkFieldName), "family")
    && impls[1].implements == CloneTrait
    && impls[1].member.name == "clone"
    && impls[1].member.receiver == RefSelf
    && impls[1].member.params == []
    && impls[1].member.ret == SelfType
    && impls[1].member.body == Call(PrivateClonePath, [SelfValue])
    && impls[2].implements == FromTrait(FamilyOf(selfTy))
    && impls[2].member.name == "from"
    && impls[2].member.receiver == NoReceiver
    && impls[2].member.params == [FnParam("family", FamilyOf(selfTy))]
    && impls[2].member.ret == SelfType
    && impls[2].member.body == MethodCall(Var("family"), "__private_into")
  }

  /** The three impls for struct `name` with generics `g`. */
  function GeneratedImpls(name: string, g: Generics): (r: seq<Impl>)
    ensures IsGeneratedImplsFor(r, name, g)
    ensures forall impls :: IsGeneratedImplsFor(impls, name, g) ==> impls == r
  {
    var split := SplitForImpl(g);
    var selfTy := Path(name, split.typeArgs);
    [ Impl(split.implParams, ObjectTrait, selfTy, split.whereClause, FamilyFn()),
      Impl(split.implParams, CloneTrait, selfTy, split.whereClause, CloneFn()),
      Impl(split.implParams, FromTrait(FamilyOf(selfTy)), selfTy, split.whereClause,
           FromFn(selfTy)) ]
  }

  /** Validates that the struct has named fields, then rewrites it. */
  function Core(s: ItemStruct): (r: Result<Expansion, Error>)
    ensures r.Ok? <==> s.fields.Named?
    ensures !s.fields.Named? ==> r == Err(Error(s.span, NotNamedFieldsMessage))
    ensures r.Ok? ==>
      var out := r.value.item;
      && out.fields.Named?
      && |out.fields.named| == |s.fields.named| + 1
      && out.fields.named[..|s.fields.named|] == s.fields.named
      && out.fields.named[|s.fields.named|] == LinkField()
      && out.attrs == s.attrs && out.vis == s.vis && out.name == s.name
      && out.generics == s.generics && out.span == s.span
    ensures r.Ok? ==>
      && |r.value.impls| == 3
      && r.value.impls[0].implements == ObjectTrait
      && r.value.impls[1].implements == CloneTrait
      && r.value.impls[2].implements == FromTrait(FamilyOf(SelfPath(s.name, s.generics)))
      && forall k :: 0 <= k < 3 ==>
           && r.value.impls[k].selfTy == SelfPath(s.name, s.generics)
           && r.value.impls[k].params == SplitForImpl(s.generics).implParams
           && r.value.impls[k].whereClause == s.generics.whereClause
  {
    match s.fields
    case Named(fs) =>
      var extended := s.(fields := Named(fs + [LinkField()]));
      Ok(Expansion(extended, GeneratedImpls(s.name, s.generics)))
    case _ =>
      Err(Error(s.span, NotNamedFieldsMessage))
  }

  /** A parse result the attribute accepts: a struct with named fields. */
  predicate Accepted(parsed: Result<Item, Error>) {
    parsed.Ok? && parsed.value.Struct? && parsed.value.item.fields.Named?
  }

  /** The attribute's entry point. `parse` is the item parser applied to the
      input tokens; the attribute's own arguments are ignored. */
  function Entrypoint<Tokens>(attr: Tokens, input: Tokens, parse: Tokens -> Result<Item, Error>)
    : (r: Output<Tokens>)
    ensures ContainsCompileError(r) <==> !Accepted(parse(input))
    ensures parse(input).Err? ==> r == InputWithError(input, parse(input).error)
    ensures parse(input).Ok? && !parse(input).value.Struct? ==>
      r == InputWithError(input, Error(ItemSpan(parse(input).value), NotAStructMessage))
    ensures parse(input).Ok? && parse(input).value.Struct? && !Accepted(parse(input)) ==>
      r == InputWithError(input, Error(parse(input).value.item.span, NotNamedFieldsMessage))
    ensures Accepted(parse(input)) ==> r == Expanded(Core(parse(input).value.item).value)
  {
    var result :=
      match parse(input)
      case Ok(Struct(item)) => Core(item)
      case Ok(x) => Err(Error(ItemSpan(x), NotAStructMessage))
      case Err(e) => Err(e);
    match result
    case Ok(expanded) => Expanded(expanded)
    case Err(e) => InputWithError(input, e)
  }

  /** Recovers the author's struct from an expansion by dropping the last field. */
  function Strip(e: Expansion): ItemStruct {
    match e.item.fields
    case Named(fs) => if |fs| == 0 then e.item else e.item.(fields := Named(fs[..|fs| - 1]))
    case _ => e.item
  }

  /** Stripping undoes the expansion, so no two structs expand alike. */
  lemma StripInvertsCore(s: ItemStruct)
    requires s.fields.Named?
    ensures Strip(Core(s).value) == s
    ensures forall t: ItemStruct :: t.fields.Named? && Core(t) == Core(s) ==> t == s
  {
    forall t: ItemStruct | t.fields.Named? && Core(t) == Core(s)
      ensures t == s
    {
      assert Strip(Core(t).value) == t;
    }
  }

  /** The generated methods are fixed delegations: `family` reads only the
      link field, `clone` hands `self` to the private clone routine without
      reading any field, and `from` converts the family handle. */
  lemma GeneratedMethodsDelegate(s: ItemStruct)
    requires s.fields.Named?
    ensures var impls := Core(s).value.impls;
      && impls[0].member.name == "family" && impls[0].member.receiver == RefSelf
      && impls[0].member.params == [] && impls[0].member.ret == FamilyOf(SelfType)
      && FieldsRead(impls[0].member.body) == {LinkFieldName}
      && impls[0].member.body == MethodCall(FieldAccess(SelfValue, LinkFieldName), "family")
      && impls[1].member.name == "clone" && impls[1].member.receiver == RefSelf
      && impls[1].member.params == [] && impls[1].member.ret == SelfType
      && FieldsRead(impls[1].member.body) == {}
      && impls[1].member.body == Call(PrivateClonePath, [SelfValue])
      && impls[2].member.name == "from" && impls[2].member.receiver == NoReceiver
      && impls[2].member.params == [FnParam("family", FamilyOf(SelfPath(s.name, s.generics)))]
      && impls[2].member.ret == SelfType
      && FieldsRead(impls[2].member.body) == {}
      && impls[2].member.body == MethodCall(Var("family"), "__private_into")
  {
    var body := Call(PrivateClonePath, [SelfValue]);
    assert FieldsRead(body) == {} by {
      forall f | f in FieldsRead(body)
        ensures false
      {
      }
    }
  }

  /** The shape every expansion has: named fields ending in the link field,
      and the three impls a linked object type of that name and generics needs. */
  predicate IsLinkedObjectExpansion(e: Expansion) {
    && e.item.fields.Named?
    && |e.item.fields.named| >= 1
    && e.item.fields.named[|e.item.fields.named| - 1] == LinkField()
    && IsGeneratedImplsFor(e.impls, e.item.name, e.item.generics)
  }

  /** For a struct with named fields, `e` is its expansion exactly when `e` has
      the linked object shape and stripping `e` gives back the struct. */
  lemma ExpansionCharacterized(s: ItemStruct, e: Expansion)
    requires s.fields.Named?
    ensures Core(s) == Ok(e) <==> IsLinkedObjectExpansion(e) && Strip(e) == s
  {
    if IsLinkedObjectExpansion(e) && Strip(e) == s {
      var fs := e.item.fields.named;
      assert fs == fs[..|fs| - 1] + [LinkField()];
      assert e.item == s.(fields := Named(s.fields.named + [LinkField()]));
    }
  }

  /** How many of the fields `fs` are named `n`. */
  function FieldNameCount(fs: seq<Field>, n: string): nat {
    if fs == [] then 0
    else (if fs[0].name == n then 1 else 0) + FieldNameCount(fs[1..], n)
  }

  lemma {:induction false} FieldNameCountAppend(a: seq<Field>, b: seq<Field>, n: string)
    ensures FieldNameCount(a + b, n) == FieldNameCount(a, n) + FieldNameCount(b, n)
    decreases |a|
  {
    if a != [] {
      FieldNameCountAppend(a[1..], b, n);
      assert (a + b)[1..] == a[1..] + b;
    } else {
      assert a + b == b;
    }
  }

  /** The expansion adds exactly one field named `__private_linked_link`: a
      struct that had none ends up with exactly one. */
  lemma LinkFieldAddedOnce(s: ItemStruct)
    requires s.fields.Named?
    ensures FieldNameCount(Core(s).value.item.fields.named, LinkFieldName) ==
      FieldNameCount(s.fields.named, LinkFieldName) + 1
  {
    FieldNameCountAppend(s.fields.named, [LinkField()], LinkFieldName);
  }

  /** A struct without fields expands to one whose only field is the link. */
  lemma EmptyStructGetsOnlyLinkField(s: ItemStruct)
    requires s.fields == Named([])
    ensures Core(s).Ok? && Core(s).value.item.fields == Named([LinkField()])
  {
  }

  /** The attribute's arguments never affect the result. */
  lemma EntrypointIgnoresAttr<Tokens>(a1: Tokens, a2: Tokens, input: Tokens,
                                      parse: Tokens -> Result<Item, Error>)
    ensures Entrypoint(a1, input, parse) == Entrypoint(a2, input, parse)
  {
  }
}
