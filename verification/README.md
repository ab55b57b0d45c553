# folo: `linked::object` expansion and the work distribution catalogue

This project models two pieces of sequential logic from the folo repository and proves properties about them.

1. **The `linked::object` attribute expansion.** This is the code-generation step behind every linked object type.
   - It accepts only a struct with named fields.
   - It re-emits that struct with one hidden field appended after the author's fields: `__private_linked_link: Link<Self>`.
   - It emits three impls, each with the struct's own generics and where-clause:
     - `linked::Object`, whose `family()` reads the link field;
     - `Clone`, which delegates to `linked::__private::clone(self)`;
     - `From<Family<Self>>`, which delegates to `family.__private_into()`.
   - An enum, any other item kind, a tuple or unit struct, and input that fails to parse all come back as the original input plus a compile error.
2. **The work distribution catalogue of the benchmark harness.** This is a closed set of eight modes plus four static lists that select subsets of it.
   - Each mode is described by two facts from its documentation: whether each worker gets back its own payload (a "Self" mode), and whether both workers of a pair share one processor.
   - The lemmas prove that each list is exactly the order-preserving filter of `All()` by those facts.

Files:

- `syn_model.dfy` (module `Syn`): an abstract parsed item (kind, name, generics, where-clause, fields) and the generics split used in `impl` headers.
- `linked_object.dfy` (module `LinkedObject`): `Entrypoint`, `Core`, the generated impls, and lemmas about them.
- `linked_object_tests.dfy` (module `LinkedObjectTests`): the attribute's four unit tests. Each states its expected outcome, written out in full.
- `sequences.dfy` (module `Sequences`): order-preserving `Filter`, `IsSubsequence`, `NoDuplicates`, and inductive lemmas about them.
- `work_distribution.dfy` (module `WorkDistribution`): the modes, the two describing predicates, the four lists, and their lemmas.

Modelling choices:

- Parsing the input (`syn::parse2`) is the `parse` parameter of `Entrypoint`. The raw token stream is a type parameter.
- `token_stream_and_error` is modelled as `Output.InputWithError(input, error)`: the untouched input plus the error. Its source is not part of this model.
- `contains_compile_error` is modelled as `ContainsCompileError`, which is true exactly for `InputWithError`.
- Generated code is a structured value (`Expansion`, `Impl`, `Fn`, `Expr`), not tokens.
- The generics split (`split_for_impl`) belongs to the parser library, whose source is not part of this model. It is modelled by its documented behaviour:
  - impl parameters are the declared parameters with their bounds, with defaults dropped;
  - type arguments are the parameter names alone;
  - the where-clause is unchanged.

## Model

| member | source | states |
|---|---|---|
| LinkedObject.Entrypoint | crates/linked_macros_impl/src/linked_object.rs:12-28 | The output carries a compile error exactly when the input is not a struct with named fields. A parse error is passed through unchanged, together with the input. A non-struct item gets the "must be applied to a struct" error at the item's span. A struct without named fields gets the "named fields" error. An accepted struct gets the expansion of `Core`. |
| LinkedObject.EntrypointIgnoresAttr | crates/linked_macros_impl/src/linked_object.rs:12-13 | The attribute's own arguments never change the output. |
| LinkedObject.Core | crates/linked_macros_impl/src/linked_object.rs:30-68 | Succeeds exactly for named fields, else errors at the struct's span. On success, the fields are the input's fields in order followed by the link field, and every other part of the struct is unchanged. There are exactly three impls (Object, Clone, `From<Family<Name<..>>>`), each for the struct's own type, with its impl generics and unchanged where-clause. |
| LinkedObject.StripInvertsCore | crates/linked_macros_impl/src/linked_object.rs:41-46 | Dropping the last field of an expansion gives back the author's struct. So two different structs never expand to the same output. |
| LinkedObject.ExpansionCharacterized | crates/linked_macros_impl/src/linked_object.rs:41-65 | For a named-field struct `s`, `e` is its expansion if and only if `e` has the linked object shape and stripping `e` gives `s`. The shape is named fields ending in the link field, plus impls that satisfy `IsGeneratedImplsFor`, which describes the three impls piece by piece. |
| LinkedObject.GeneratedImpls | crates/linked_macros_impl/src/linked_object.rs:45-65 | The generated impls satisfy `IsGeneratedImplsFor`: `Object`, `Clone` and `From<Family<Name<..>>>` in that order. Each is for the struct's own type, with its impl generics and where-clause, and holds its one delegating method with the source's signature and body. They are also the only impls that satisfy it. |
| LinkedObject.LinkField | crates/linked_macros_impl/src/linked_object.rs:42-43 | The hidden `#[doc(hidden)] __private_linked_link: Link<Self>` field. It has no contract of its own; `Core`, `ExpansionCharacterized` and `LinkFieldAddedOnce` state where it goes. |
| LinkedObject.LinkFieldAddedOnce | crates/linked_macros_impl/src/linked_object.rs:41-43 | The expansion adds exactly one field named `__private_linked_link`. |
| LinkedObject.EmptyStructGetsOnlyLinkField | crates/linked_macros_impl/src/linked_object.rs:78-111 | A struct with no fields expands to one whose only field is the link field. |
| LinkedObject.GeneratedMethodsDelegate | crates/linked_macros_impl/src/linked_object.rs:48-64 | `family(&self)` takes no other parameters, returns `Family<Self>` and reads only the link field. `clone(&self)` takes no other parameters, returns `Self`, calls `::linked::__private::clone(self)` and reads no field, so it is not a field-wise copy. `from(family)` has no `self` receiver, takes `Family<Name<..>>`, returns `Self` and calls `family.__private_into()`. |
| Syn.SplitForImpl | crates/linked_macros_impl/src/linked_object.rs:31 | Impl parameters and type arguments follow the declared parameters one for one. The where-clause is unchanged. |
| Syn.ImplParam | crates/linked_macros_impl/src/linked_object.rs:31 | An impl-header parameter keeps its kind, name and bounds, and loses its default. |
| Syn.ParamArg | crates/linked_macros_impl/src/linked_object.rs:31 | A type argument is the parameter's name alone, of the same kind: lifetime, type or const. |
| Syn.SelfPath | crates/linked_macros_impl/src/linked_object.rs:48 | The implemented type is the struct's name applied to exactly its own parameters' names, in order. |
| LinkedObjectTests.SmokeTest | crates/linked_macros_impl/src/linked_object.rs:77-112 | `struct Foo {}` expands to the link field alone plus the three impls for plain `Foo`. |
| LinkedObjectTests.SmokeTestWithGenerics | crates/linked_macros_impl/src/linked_object.rs:114-168 | `struct Foo<'y, T: Clone, X> where X: Debug {..}` keeps its two fields, then the link field. Its impls use `<'y, T: Clone, X>`, the type `Foo<'y, T, X>` and `where X: Debug`. |
| LinkedObjectTests.WithUnnamedFieldsFails | crates/linked_macros_impl/src/linked_object.rs:170-178 | A tuple struct yields the input plus a compile error. |
| LinkedObjectTests.WithEnumFails | crates/linked_macros_impl/src/linked_object.rs:180-188 | An enum yields the input plus the "must be applied to a struct" compile error at the enum's span. |
| WorkDistribution.GivesWorkersOwnPayload | crates/many_cpus_benchmarking/src/work_distribution.rs:59-61 | True exactly for the modes whose documentation says each worker is given back its own payload: PinnedSelf, UnpinnedSelf (lines 88-90) and UnpinnedPerMemoryRegionSelf (lines 105-107). It has no contract of its own; the list lemmas below use it. |
| WorkDistribution.PutsPairOnOneProcessor | crates/many_cpus_benchmarking/src/work_distribution.rs:40-41 | True exactly for PinnedSameProcessor, whose documentation puts both workers of a pair on the same processor. It has no contract of its own; the list lemmas below use it. |
| WorkDistribution.All | crates/many_cpus_benchmarking/src/work_distribution.rs:118-129 | The literal list of all modes, in the source's order. It has eight entries and no duplicates. `AllListsEachModeOnce` adds that every mode is present. |
| WorkDistribution.AllWithoutSelf | crates/many_cpus_benchmarking/src/work_distribution.rs:134-142 | The literal list, in the source's order. Every entry exchanges payloads. `AllWithoutSelfIsFilter` adds completeness and order. |
| WorkDistribution.AllWithUniqueProcessors | crates/many_cpus_benchmarking/src/work_distribution.rs:148-158 | The literal list, in the source's order. Every entry allows unique processors. `AllWithUniqueProcessorsIsFilter` adds completeness and order. |
| WorkDistribution.AllWithUniqueProcessorsWithoutSelf | crates/many_cpus_benchmarking/src/work_distribution.rs:165-172 | The literal list, in the source's order. Every entry meets both criteria. `AllWithUniqueProcessorsWithoutSelfIsFilter` and `CombinedIsIntersection` add completeness and order. |
| WorkDistribution.AllListsEachModeOnce | crates/many_cpus_benchmarking/src/work_distribution.rs:10-129 | `All()` has eight entries, lists every mode, and has no duplicates. |
| WorkDistribution.AllWithoutSelfIsFilter | crates/many_cpus_benchmarking/src/work_distribution.rs:131-142 | `all_without_self()` is `All()` filtered, in order, to the modes that exchange payloads. A mode is in it if and only if it is not one of the own-payload modes PinnedSelf, UnpinnedSelf and UnpinnedPerMemoryRegionSelf. |
| WorkDistribution.AllWithUniqueProcessorsIsFilter | crates/many_cpus_benchmarking/src/work_distribution.rs:144-158 | `all_with_unique_processors()` is `All()` filtered, in order, to the modes that do not put a pair on one processor. A mode is in it if and only if it is not PinnedSameProcessor. |
| WorkDistribution.AllWithUniqueProcessorsWithoutSelfIsFilter | crates/many_cpus_benchmarking/src/work_distribution.rs:160-172 | `all_with_unique_processors_without_self()` is `All()` filtered, in order, by both criteria. A mode is in it if and only if it is neither an own-payload mode nor a same-processor mode. |
| WorkDistribution.CombinedIsIntersection | crates/many_cpus_benchmarking/src/work_distribution.rs:160-172 | The combined list is the order-preserving intersection of the two single-criterion lists, in either order of filtering. |
| Sequences.FilterIntersection | crates/many_cpus_benchmarking/src/work_distribution.rs:160-172 | For any sequence and criteria, filtering by one criterion and then keeping only what the filter by the other keeps equals filtering by both at once. This is the general fact behind the combined list. |
| WorkDistribution.ListsAreDuplicateFreeSubsequences | crates/many_cpus_benchmarking/src/work_distribution.rs:118-172 | Every list is a duplicate-free subsequence of `All()`. The combined list is a subsequence of each single-criterion list. |

## Left out

- The linked family runtime (`Family`, `Link`, `__private::clone`, `__private_into`, `linked::new!`, `linked::instances!` and the thread-local instance cache) is not part of this model. Its source is not among the modelled files, so the generated code is modelled only as the calls it makes.
- Token rendering (`quote!`, spans as source ranges, `syn::parse2`, `token_stream_and_error` internals) is left out. Parsing is a parameter, spans are plain numbers, and the output is a structured value.
- The parser library's `split_for_impl` is modelled by its documented behaviour, not its source. Attributes on generic parameters are not modelled.
- LinkedObject.LinkFieldAddedOnce: states that the expansion adds one link-named field, so a struct that had none ends with exactly one. The attribute itself does not reject an author field that already uses that name, and neither does the model. The duplicate would be rejected later by the Rust compiler, which is outside this model.
- The `Display` derive and the other derives of `WorkDistribution` are left out. Equality of the Dafny datatype stands in for `Eq`.
- `#[non_exhaustive]` is left out. It affects matching in other crates only.
- These other repository files are left out:
  - the `linked_std_box.rs` and `spawn_on_any_processors.rs` examples, which use threads, atomics and timing;
  - `resource_quota.rs`, a floating-point getter;
  - the module declarations in `pal/linux.rs` and `many_cpus_benchmarking/src/lib.rs`.
