# C++ link parameters: a Dafny model of `CcLinkParams`

This project models the part of the build tool that collects what a C++ target
hands to the linker: its link options, linkstamps, libraries, execution-time
dynamic libraries, and two optional parts, extra link-time libraries and
non-code inputs (linker scripts and the like). A target gathers these with a
`CcLinkParams.Builder`. The builder merges its dependencies' parameters
transitively, adds its own items, and is built once into an immutable
`CcLinkParams`.

Layout:

- `wrappers.dfy`: `Option` stands for a Java reference that may be null, and
  `Result` for a call that may throw.
- `nested_sets.dfy`: a nested set is recorded as the sequence of its direct and
  transitive additions, in call order. `Elements` flattens that record.
- `link_params.dfy`: the value types. `LinkOptions` is a class, so entries have
  object identity. It also holds `Linkstamp` with its `equals`, `CcLinkParams`,
  `EMPTY` and `flattenedLinkopts`.
- `builder_spec.dfy`: the builder as a value. `Step` is the effect of each
  operation and `Replay` the effect of a sequence of them. `Consistent` says what
  the fields must say about the calls made so far. The lemmas show that every
  operation preserves it and what `build()` then returns.
- `builder.dfy`: the builder as the source has it. It is a class whose methods
  update its fields in place. A ghost history records each change.
  `Valid()` is `Consistent(State(), history)`. Each method's new state is its
  old state replayed through the changes it records:
  `Replay(old(State()), events)`, or `Step(old(State()), e)` for a single change `e`.

## Model

| member | source | states |
|---|---|---|
| `NestedSets.AddAll` | src/main/java/com/google/devtools/build/lib/rules/cpp/CcLinkParams.java:349-352 | adding a collection appends its items to the iteration order, in order |
| `LinkParams.LinkOptions.constructor` | src/main/java/com/google/devtools/build/lib/rules/cpp/CcLinkParams.java:56-70 | `LinkOptions.of` makes a new entry (a new identity) holding the given options |
| `LinkParams.Linkstamp.Equals` | src/main/java/com/google/devtools/build/lib/rules/cpp/CcLinkParams.java:429-440 | `equals` holds exactly when the other object is a linkstamp with the same artifact and the same declared includes; null and non-linkstamps are unequal |
| `LinkParams.LinkstampEqualsIsEquivalence` | src/main/java/com/google/devtools/build/lib/rules/cpp/CcLinkParams.java:429-440 | linkstamp equality is reflexive, symmetric and transitive, and never holds for null |
| `LinkParams.NewLinkstamp` | src/main/java/com/google/devtools/build/lib/rules/cpp/CcLinkParams.java:404-408 | construction fails with a null-pointer error exactly when the artifact or the include set is null; otherwise it holds both |
| `LinkParams.ConcatAppend` | src/main/java/com/google/devtools/build/lib/rules/cpp/CcLinkParams.java:104-106 | flattening the options of two runs of entries is flattening each and concatenating |
| `LinkParams.FlattenedTransitive` | src/main/java/com/google/devtools/build/lib/rules/cpp/CcLinkParams.java:104-106 | `flattenedLinkopts` over a transitive addition appends the nested set's options after the earlier ones |
| `LinkParams.FlattenedDirect` | src/main/java/com/google/devtools/build/lib/rules/cpp/CcLinkParams.java:104-106 | `flattenedLinkopts` over a direct addition appends that entry's options last |
| `LinkParams.EmptyHasNoOptions` | src/main/java/com/google/devtools/build/lib/rules/cpp/CcLinkParams.java:443-451 | `EMPTY` flattens to no options and has null extra libraries and null non-code inputs |
| `BuilderSpec.FirstMatch` | src/main/java/com/google/devtools/build/lib/rules/cpp/CcLinkParams.java:249-268 | the chosen mapping yields a store and every mapping before it yields null; with no choice, every mapping yields null |
| `BuilderSpec.FirstMatchIs` | src/main/java/com/google/devtools/build/lib/rules/cpp/CcLinkParams.java:249-268 | the first match is unique: it is the index before which all mappings yield null and at which one yields a store |
| `BuilderSpec.MappedMergesFirst` | src/main/java/com/google/devtools/build/lib/rules/cpp/CcLinkParams.java:259-261 | when the first mapping yields a store, exactly that store is merged |
| `BuilderSpec.MappedMergesAfterFirst` | src/main/java/com/google/devtools/build/lib/rules/cpp/CcLinkParams.java:262-267 | when the first mappings yield null, the store of the next one that yields a store is merged, and nothing when all yield null |
| `BuilderSpec.HistoryAppend` | src/main/java/com/google/devtools/build/lib/rules/cpp/CcLinkParams.java:196-381 | one more call extends the build count, the local options, the merged options and the "nothing supplied" facts by that call's own contribution |
| `BuilderSpec.InitialIsConsistent` | src/main/java/com/google/devtools/build/lib/rules/cpp/CcLinkParams.java:166-191 | a fresh builder (no options, empty sets, both lazy sub-builders null, not built) agrees with an empty history |
| `BuilderSpec.StepPreservesConsistency` | src/main/java/com/google/devtools/build/lib/rules/cpp/CcLinkParams.java:196-381 | every builder operation, and a first build, keeps the fields in agreement with the calls made: at most one build, local options collected in call order, link options flattening to the merged ones, each lazy sub-builder null exactly when nothing supplied it |
| `BuilderSpec.ReplayIsConsistent` | src/main/java/com/google/devtools/build/lib/rules/cpp/CcLinkParams.java:196-381 | any call sequence with at most one build, applied to a fresh builder, gives a builder in that agreement; so extra libraries (non-code inputs) are null exactly when no `addExtraLinkTimeLibrary` (`addNonCodeInputs`) call and no merged parameters supplied them |
| `BuilderSpec.NoLocalLinkoptsIff` | src/main/java/com/google/devtools/build/lib/rules/cpp/CcLinkParams.java:200-203 | the local options are empty exactly when every `addLinkOpts` call passed an empty collection |
| `BuilderSpec.BuildAppendsLocalEntry` | src/main/java/com/google/devtools/build/lib/rules/cpp/CcLinkParams.java:196-218 | `build()` appends exactly one entry, last, iff there are local options; the result flattens to the merged options in merge order followed by the local ones |
| `BuilderSpec.ReplayAppend` | src/main/java/com/google/devtools/build/lib/rules/cpp/CcLinkParams.java:221-295 | a sequence of calls followed by another has the effect of the first sequence and then the second from the state it left; the merging methods rely on this to compose |
| `BuilderSpec.NothingAddedBuildsEmpty` | src/main/java/com/google/devtools/build/lib/rules/cpp/CcLinkParams.java:443-451 | building a builder to which nothing was added gives a value with the same parts as `EMPTY`: four empty sets and two nulls |
| `LinkParamsBuilder.Builder.constructor` | src/main/java/com/google/devtools/build/lib/rules/cpp/CcLinkParams.java:143-191 | `builder(linkingStatically, linkShared)` gives a fresh builder with an empty history |
| `LinkParamsBuilder.Builder.Build` | src/main/java/com/google/devtools/build/lib/rules/cpp/CcLinkParams.java:196-219 | a second call fails with an illegal-state error and changes nothing; the first adds one fresh entry holding the local options only if there are any, leaves every other set unchanged, and returns parameters whose optional parts are null exactly when no call supplied them and whose options flatten to the merged ones followed by the local ones |
| `LinkParamsBuilder.Builder.Add` | src/main/java/com/google/devtools/build/lib/rules/cpp/CcLinkParams.java:221-227 | returns true iff the store is non-null; the new builder state is the old one after merging `store.get(linkingStatically, linkShared)` when the store is non-null, and is the old state unchanged for a null store; the own options and the built flag never change |
| `LinkParamsBuilder.Builder.AddTransitiveTargets` | src/main/java/com/google/devtools/build/lib/rules/cpp/CcLinkParams.java:232-237 | the new builder state is the old one after merging each target's provider store in target order; the own options and the built flag are unchanged |
| `LinkParamsBuilder.Builder.AddTransitiveTarget` | src/main/java/com/google/devtools/build/lib/rules/cpp/CcLinkParams.java:245-247 | the new builder state is the old one after merging the target's provider store, and is the old state unchanged when the target has no provider or the provider has no store |
| `LinkParamsBuilder.Builder.AddTransitiveTargetWithMappings` | src/main/java/com/google/devtools/build/lib/rules/cpp/CcLinkParams.java:254-268 | the new builder state is the old one after merging exactly the store of the first mapping that yields one, so at most one merge; it is the old state unchanged if all mappings yield null |
| `LinkParamsBuilder.Builder.AddTransitiveProvider` | src/main/java/com/google/devtools/build/lib/rules/cpp/CcLinkParams.java:273-278 | a null provider leaves the builder state unchanged; otherwise the new state is the old one after merging the provider's store, as `add` does |
| `LinkParamsBuilder.Builder.AddTransitiveTargetsWithMappings` | src/main/java/com/google/devtools/build/lib/rules/cpp/CcLinkParams.java:285-295 | the new builder state is the old one after applying the first-match rule to each target, in target order; the own options and the built flag are unchanged |
| `LinkParamsBuilder.Builder.AddTransitiveArgs` | src/main/java/com/google/devtools/build/lib/rules/cpp/CcLinkParams.java:300-318 | always adds the four mandatory sets transitively; creates or feeds an optional sub-builder only when the argument's part is non-null, and otherwise leaves it as it was; nothing else changes, so the new state is `Step` by the merge |
| `LinkParamsBuilder.Builder.AddLinkOpts` | src/main/java/com/google/devtools/build/lib/rules/cpp/CcLinkParams.java:323-326 | appends the options to the local options and changes nothing else |
| `LinkParamsBuilder.Builder.AddLinkstamps` | src/main/java/com/google/devtools/build/lib/rules/cpp/CcLinkParams.java:329-336 | with a non-null include set, adds one linkstamp per artifact, in iteration order, each with that include set, and changes nothing else; with a null include set it fails with a null-pointer error iff there is an artifact, and in either case changes nothing |
| `LinkParamsBuilder.AddEachLinkstamp` | src/main/java/com/google/devtools/build/lib/rules/cpp/CcLinkParams.java:331-334 | the loop constructs and appends exactly the linkstamps for the artifacts, in order; it fails iff the include set is null and there is an artifact, and then nothing is added |
| `LinkParamsBuilder.Builder.AddLibrary` | src/main/java/com/google/devtools/build/lib/rules/cpp/CcLinkParams.java:341-344 | appends the library and changes nothing else |
| `LinkParamsBuilder.Builder.AddLibraries` | src/main/java/com/google/devtools/build/lib/rules/cpp/CcLinkParams.java:349-352 | appends the libraries in order and changes nothing else |
| `LinkParamsBuilder.Builder.AddExecutionDynamicLibraries` | src/main/java/com/google/devtools/build/lib/rules/cpp/CcLinkParams.java:355-358 | appends the dynamic libraries in order and changes nothing else |
| `LinkParamsBuilder.Builder.AddExtraLinkTimeLibrary` | src/main/java/com/google/devtools/build/lib/rules/cpp/CcLinkParams.java:364-370 | creates the sub-builder if null, then appends the library; the sub-builder is non-null afterwards |
| `LinkParamsBuilder.Builder.AddNonCodeInputs` | src/main/java/com/google/devtools/build/lib/rules/cpp/CcLinkParams.java:375-381 | creates the sub-builder if null, even for an empty collection, then appends the inputs |
| `LinkParamsBuilder.TargetsReachBuild` | src/main/java/com/google/devtools/build/lib/rules/cpp/CcLinkParams.java:232-237 | a fresh builder that merges some targets' providers then builds successfully, and the result holds exactly the sets those merges collected |
| `LinkParamsBuilder.SecondBuildFails` | src/main/java/com/google/devtools/build/lib/rules/cpp/CcLinkParams.java:196-199 | on a fresh builder the first `build()` returns parameters with the same parts as `EMPTY`, and the second fails with an illegal-state error |
| `LinkParamsBuilder.SameOptionsStayDistinct` | src/main/java/com/google/devtools/build/lib/rules/cpp/CcLinkParams.java:47-53 | two targets contributing the same options give two distinct entries, and a dependent target's flattened options hold them twice |

## Left out

- `ObjectCodecs.java` is not part of this model. It only forwards to serialization contexts and protobuf streams, which are outside this model, and turns their I/O errors into serialization errors.
- `Elements`: a nested set's order (link, compile or stable order) and its removal of duplicates are not modelled. Iteration is taken to be the order in which additions were recorded. So in a diamond of dependencies, where the same `LinkOptions` entry is reached twice, `FlattenedLinkopts` lists its options twice. The source lists them once.
- `AddTransitiveArgs`: the check in `NestedSetBuilder.addTransitive` that a transitive member has a compatible order is outside this model.
- `AddTransitiveTarget`: looking up a target's provider (`target.get(CcLinkParamsInfo.PROVIDER)`) is a foreign call. It is modelled as a field of the target. The provider's `getCcLinkParamsStore()` is a field too.
- `Add`: `CcLinkParamsStore.get` is not modelled. A store is modelled as an arbitrary function of the two flags.
- `addCcLibrary` (lines 384-390) is left out. It reads a rule context's prerequisites, a foreign call. Apart from that it is `AddTransitiveTargetsWithMappings` with two fixed mappings, `CcLinkParamsInfo.TO_LINK_PARAMS` and `CcSpecificLinkParamsProvider.TO_LINK_PARAMS`, which are outside this model.
- `AddLinkstamps`: `CcCompilationContextInfo.getDeclaredIncludeSrcs()` is not modelled. The method takes what that getter yields, possibly null, in place of the context. A null artifact inside the `linkstamps` set is not modelled, since a nested set's members are taken to be non-null.
- `Linkstamp.hashCode` is left out. It depends on the library's hashing.
- `Linkstamp.Equals`: `Artifact.equals` and `NestedSet.equals` are outside this model. Both are modelled as structural equality of the recorded values.
- Null arguments are not modelled for the add methods, for example `addLinkOpts(null)`. Only the nulls that the source checks or that are part of its design are modelled: stores, providers, mapping results, the two lazy sub-builders, and the linkstamp constructor's arguments.
- The `ExtraLinkTimeLibraries` class and its builder are outside this model. They are modelled as a nested set of extra libraries.
- `CcLinkParams` is modelled as a value. `build()` returns a new object each time, and `CcLinkParams` does not override `equals`, so such a result is never the `EMPTY` object. Where the model says a result equals `EMPTY`, it means the result has the same six parts.
- The builder methods return `this` for chaining. The model's methods return nothing.
- The getters are the fields of the `CcLinkParams` datatype. `LinkOptions.get()` is its `options` field.
- The serialization annotations and the thread-safety remark have no behaviour to model.
