/**
 The expected outcomes of the attribute's own unit tests, stated as lemmas
 about `LinkedObject.Entrypoint`. Each expected expansion is written out in
 full rather than rebuilt from the generating functions, so the lemmas pin
 the generated shape down independently. The raw token stream is a string
 and the parser is the constant function returning the item the test text
 parses to.
 */
module LinkedObjectTests {
  import opened Syn
  import opened LinkedObject

  /** `::linked::Family<t>` written out. */
  function ExpectedFamily(t: Type): Type {
    Path("::linked::Family", [TypeArg(t)])
  }

  /** `#[doc(hidden)] __private_linked_link: ::linked::__private::Link<Self>` */
  function ExpectedLinkField(): Field {
    Field(["doc(hidden)"], "", "__private_linked_link",
          Path("::linked::__private::Link", [TypeArg(SelfType)]))
  }

  /** The three impls the tests expect for a struct named by `selfTy`. */
  function ExpectedImpls(params: seq<GenericParam>, selfTy: Type, whereClause: seq<string>): seq<Impl> {
    [ Impl(params, ObjectTrait, selfTy, whereClause,
           Fn("family", RefSelf, [], ExpectedFamily(SelfType),
              MethodCall(FieldAccess(SelfValue, "__private_linked_link"), "family"))),
      Impl(params, CloneTrait, selfTy, whereClause,
           Fn("clone", RefSelf, [], SelfType,
              Call("::linked::__private::clone", [SelfValue]))),
      Impl(params, FromTrait(ExpectedFamily(selfTy)), selfTy, whereClause,
           Fn("from", NoReceiver, [FnParam("family", ExpectedFamily(selfTy))], SelfType,
              MethodCall(Var("family"), "__private_into"))) ]
  }

  /** `struct Foo { }` */
  lemma SmokeTest(input: string)
    ensures var foo := ItemStruct([], "", "Foo", Generics([], []), Named([]), 0);
      Entrypoint("", input, _ => Ok(Struct(foo))) ==
      Expanded(Expansion(foo.(fields := Named([ExpectedLinkField()])),
                         ExpectedImpls([], Path("Foo", []), [])))
  {
  }

  /** `struct Foo<'y, T: Clone, X> where X: Debug { something: X, something_else: &'y Y }` */
  lemma SmokeTestWithGenerics(input: string)
    ensures
      var params := [ LifetimeParam("'y", []),
                      TypeParam("T", ["Clone"], None),
                      TypeParam("X", [], None) ];
      var fields := [ Field([], "", "something", Path("X", [])),
                      Field([], "", "something_else", Verbatim("&'y Y")) ];
      var foo := ItemStruct([], "", "Foo", Generics(params, ["X: Debug"]), Named(fields), 0);
      var selfTy := Path("Foo", [ LifetimeArg("'y"),
                                  TypeArg(Path("T", [])),
                                  TypeArg(Path("X", [])) ]);
      Entrypoint("", input, _ => Ok(Struct(foo))) ==
      Expanded(Expansion(foo.(fields := Named(fields + [ExpectedLinkField()])),
                         ExpectedImpls(params, selfTy, ["X: Debug"])))
  {
    var params := [ LifetimeParam("'y", []),
                    TypeParam("T", ["Clone"], None),
                    TypeParam("X", [], None) ];
    var split := SplitForImpl(Generics(params, ["X: Debug"]));
    assert split.implParams == params;
    assert split.typeArgs == [ LifetimeArg("'y"), TypeArg(Path("T", [])), TypeArg(Path("X", [])) ];
  }

  /** `struct Foo(usize, String);` */
  lemma WithUnnamedFieldsFails(input: string)
    ensures var foo := ItemStruct([], "", "Foo", Generics([], []),
                                  Unnamed([Path("usize", []), Path("String", [])]), 7);
      var r := Entrypoint("", input, _ => Ok(Struct(foo)));
      ContainsCompileError(r) && r.input == input
      && r.error.message == "the `linked::object` attribute must be applied to a struct with named fields"
  {
  }

  /** `enum Direction { Up, Down }` */
  lemma WithEnumFails(input: string)
    ensures var r := Entrypoint("", input, _ => Ok(Enum("Direction", Generics([], []), ["Up", "Down"], 3)));
      ContainsCompileError(r) && r.input == input
      && r.error == Error(3, "the `linked::object` attribute must be applied to a struct")
  {
  }
}
