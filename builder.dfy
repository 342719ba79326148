/**
 * The link-parameter builder as the source has it: an object whose fields its
 * methods update in place. A ghost history records every change; `Valid()` says
 * that the fields are consistent with that history, and each method's new state
 * is its old state replayed through the changes it records (`Step` for one).
 */
module LinkParamsBuilder {
  import opened Wrappers
  import opened NestedSets
  import opened LinkParams
  import opened BuilderSpec

  /** Java's `IllegalStateException` from a failed state check. */
  datatype BuildError = IllegalState

  class Builder {
    const linkingStatically: bool
    const linkShared: bool
    var localLinkoptsBuilder: seq<string>
    var linkOptsBuilder: NestedSet<LinkOptions>
    var linkstampsBuilder: NestedSet<Linkstamp>
    var librariesBuilder: NestedSet<LibraryToLink>
    var executionDynamicLibrariesBuilder: NestedSet<Artifact>
    var extraLinkTimeLibrariesBuilder: Option<ExtraLinkTimeLibraries>
    var nonCodeInputsBuilder: Option<NestedSet<Artifact>>
    var built: bool
    ghost var history: seq<Event>

    /** The builder's fields as a value. */
    function State(): BuilderState
      reads this
    {
      BuilderState(linkingStatically, linkShared, localLinkoptsBuilder, linkOptsBuilder,
                   linkstampsBuilder, librariesBuilder, executionDynamicLibrariesBuilder,
                   extraLinkTimeLibrariesBuilder, nonCodeInputsBuilder, built)
    }

    ghost predicate Valid()
      reads this
    {
      Consistent(State(), history)
    }

    /** `CcLinkParams.builder(linkingStatically, linkShared)`. */
    constructor (linkingStatically: bool, linkShared: bool)
      ensures Valid() && history == []
      ensures State() == Initial(linkingStatically, linkShared)
    {
      this.linkingStatically := linkingStatically;
      this.linkShared := linkShared;
      localLinkoptsBuilder := [];
      linkOptsBuilder := Empty;
      linkstampsBuilder := Empty;
      librariesBuilder := Empty;
      executionDynamicLibrariesBuilder := Empty;
      extraLinkTimeLibrariesBuilder := None;
      nonCodeInputsBuilder := None;
      built := false;
      history := [];
      InitialIsConsistent(linkingStatically, linkShared);
    }

    /** Appends `e` to the history once the fields have taken the step from `before`. */
    ghost method Record(before: BuilderState, e: Event)
      requires Consistent(before, history)
      requires e.Built? ==> !before.built
      requires State() == Step(before, e)
      modifies this`history
      ensures Valid() && history == old(history) + [e]
    {
      StepPreservesConsistency(before, history, e);
      history := history + [e];
    }

    /**
     * `build()`: runs once. A second call fails and changes nothing. The first one
     * appends the local options as one fresh entry, only if there are any, and
     * hands back the collected parameters.
     */
    method Build() returns (r: Result<CcLinkParams, BuildError>)
      requires Valid()
      modifies this
      ensures Valid()
      ensures r.Failure? <==> old(built)
      ensures old(built) ==> r == Failure(IllegalState) && unchanged(this)
      ensures r.Success? ==> built && r.value == Output(State())
      ensures r.Success? ==> exists entry :: history == old(history) + [Built(entry)]
      ensures r.Success? ==>
                && |history| == |old(history)| + 1
                && State() == Step(old(State()), history[|history| - 1])
      ensures r.Success? ==>
                if old(localLinkoptsBuilder) == [] then linkOptsBuilder == old(linkOptsBuilder)
                else && linkOptsBuilder.WithDirect?
                     && linkOptsBuilder.prefix == old(linkOptsBuilder)
                     && fresh(linkOptsBuilder.item)
                     && linkOptsBuilder.item.options == old(localLinkoptsBuilder)
      ensures r.Success? ==>
                && localLinkoptsBuilder == old(localLinkoptsBuilder)
                && linkstampsBuilder == old(linkstampsBuilder)
                && librariesBuilder == old(librariesBuilder)
                && executionDynamicLibrariesBuilder == old(executionDynamicLibrariesBuilder)
                && extraLinkTimeLibrariesBuilder == old(extraLinkTimeLibrariesBuilder)
                && nonCodeInputsBuilder == old(nonCodeInputsBuilder)
      ensures r.Success? ==>
                (linkOptsBuilder == old(linkOptsBuilder) <==>
                   forall i | 0 <= i < |old(history)| :: old(history)[i].AddedLinkOpts? ==> old(history)[i].opts == [])
      ensures r.Success? ==>
                FlattenedLinkopts(r.value) == MergedLinkopts(old(history)) + LocalLinkopts(old(history))
      ensures r.Success? ==>
                (r.value.extraLinkTimeLibraries.None? <==> NoExtraLinkTimeLibrariesSupplied(old(history)))
      ensures r.Success? ==>
                (r.value.nonCodeInputs.None? <==> NoNonCodeInputsSupplied(old(history)))
    {
      if built {
        return Failure(IllegalState);
      }
      ghost var before := State();
      var entry := new LinkOptions(localLinkoptsBuilder);
      BuildAppendsLocalEntry(before, history, entry);
      NoLocalLinkoptsIff(history);
      built := true;
      if localLinkoptsBuilder != [] {
        linkOptsBuilder := WithDirect(linkOptsBuilder, entry);
      }
      Record(before, Built(entry));
      r := Success(Output(State()));
    }

    /** `add(store)`: merges the store's parameters for this builder's flags, if there is a store. */
    method Add(store: Option<Store>) returns (added: bool)
      requires Valid()
      modifies this
      ensures Valid()
      ensures added <==> store.Some?
      ensures history == old(history) + StoreMerges(linkingStatically, linkShared, store)
      ensures State() == Replay(old(State()), StoreMerges(linkingStatically, linkShared, store))
      ensures store.None? ==> State() == old(State())
      ensures built == old(built) && localLinkoptsBuilder == old(localLinkoptsBuilder)
    {
      if store.Some? {
        var args := store.value.get(linkingStatically, linkShared);
        AddTransitiveArgs(args);
      }
      added := store.Some?;
    }

    /** `addTransitiveTargets(targets)`: each target's provider, in order. */
    method AddTransitiveTargets(targets: seq<Target>)
      requires Valid()
      modifies this
      ensures Valid()
      ensures history == old(history) + TargetsMerges(linkingStatically, linkShared, targets)
      ensures State() == Replay(old(State()), TargetsMerges(linkingStatically, linkShared, targets))
      ensures built == old(built) && localLinkoptsBuilder == old(localLinkoptsBuilder)
    {
      var i := 0;
      while i < |targets|
        invariant 0 <= i <= |targets|
        invariant Valid()
        invariant history == old(history) + TargetsMerges(linkingStatically, linkShared, targets[..i])
        invariant built == old(built) && localLinkoptsBuilder == old(localLinkoptsBuilder)
        invariant State() == Replay(old(State()), TargetsMerges(linkingStatically, linkShared, targets[..i]))
      {
        AddTransitiveTarget(targets[i]);
        TargetsMergesPrefix(linkingStatically, linkShared, targets, i);
        AppendTwice(old(history), TargetsMerges(linkingStatically, linkShared, targets[..i]),
                    ProviderMerges(linkingStatically, linkShared, targets[i].linkParamsInfo));
        ReplayAppend(old(State()), TargetsMerges(linkingStatically, linkShared, targets[..i]),
                     ProviderMerges(linkingStatically, linkShared, targets[i].linkParamsInfo));
        i := i + 1;
      }
      assert targets[..i] == targets;
    }

    /** `addTransitiveTarget(target)`: the target's link-parameter provider, if it has one. */
    method AddTransitiveTarget(target: Target)
      requires Valid()
      modifies this
      ensures Valid()
      ensures history == old(history) + ProviderMerges(linkingStatically, linkShared, target.linkParamsInfo)
      ensures State() == Replay(old(State()), ProviderMerges(linkingStatically, linkShared, target.linkParamsInfo))
      ensures built == old(built) && localLinkoptsBuilder == old(localLinkoptsBuilder)
    {
      AddTransitiveProvider(target.linkParamsInfo);
    }

    /**
     * `addTransitiveTarget(target, firstMapping, remainingMappings...)`: tries the
     * mappings in order and merges only the first store one of them yields.
     */
    method AddTransitiveTargetWithMappings(target: Target, firstMapping: Mapping, remainingMappings: seq<Mapping>)
      requires Valid()
      modifies this
      ensures Valid()
      ensures history == old(history)
                         + MappedMerges(linkingStatically, linkShared, target, [firstMapping] + remainingMappings)
      ensures State() == Replay(old(State()),
                                MappedMerges(linkingStatically, linkShared, target, [firstMapping] + remainingMappings))
      ensures |history| <= |old(history)| + 1
      ensures built == old(built) && localLinkoptsBuilder == old(localLinkoptsBuilder)
    {
      var added := Add(firstMapping(target));
      if added {
        MappedMergesFirst(linkingStatically, linkShared, target, firstMapping, remainingMappings);
        return;
      }
      for i := 0 to |remainingMappings|
        invariant Valid() && history == old(history) && State() == old(State())
        invariant forall j | 0 <= j < i :: remainingMappings[j](target).None?
      {
        added := Add(remainingMappings[i](target));
        if added {
          MappedMergesAfterFirst(linkingStatically, linkShared, target, firstMapping, remainingMappings, i);
          return;
        }
      }
      MappedMergesAfterFirst(linkingStatically, linkShared, target, firstMapping, remainingMappings,
                             |remainingMappings|);
    }

    /** `addTransitiveProvider(provider)`: the provider's store, if there is a provider. */
    method AddTransitiveProvider(provider: Option<CcLinkParamsInfo>)
      requires Valid()
      modifies this
      ensures Valid()
      ensures history == old(history) + ProviderMerges(linkingStatically, linkShared, provider)
      ensures State() == Replay(old(State()), ProviderMerges(linkingStatically, linkShared, provider))
      ensures built == old(built) && localLinkoptsBuilder == old(localLinkoptsBuilder)
    {
      if provider.Some? {
        var _ := Add(provider.value.store);
      }
    }

    /** `addTransitiveTargets(targets, firstMapping, remainingMappings...)`: each target in order. */
    method AddTransitiveTargetsWithMappings(targets: seq<Target>, firstMapping: Mapping,
                                            remainingMappings: seq<Mapping>)
      requires Valid()
      modifies this
      ensures Valid()
      ensures history == old(history)
                         + TargetsMappedMerges(linkingStatically, linkShared, targets,
                                               [firstMapping] + remainingMappings)
      ensures State() == Replay(old(State()),
                                TargetsMappedMerges(linkingStatically, linkShared, targets,
                                                    [firstMapping] + remainingMappings))
      ensures built == old(built) && localLinkoptsBuilder == old(localLinkoptsBuilder)
    {
      var i := 0;
      while i < |targets|
        invariant 0 <= i <= |targets|
        invariant Valid()
        invariant history == old(history)
                             + TargetsMappedMerges(linkingStatically, linkShared, targets[..i],
                                                   [firstMapping] + remainingMappings)
        invariant State() == Replay(old(State()),
                                    TargetsMappedMerges(linkingStatically, linkShared, targets[..i],
                                                        [firstMapping] + remainingMappings))
        invariant built == old(built) && localLinkoptsBuilder == old(localLinkoptsBuilder)
      {
        AddTransitiveTargetWithMappings(targets[i], firstMapping, remainingMappings);
        TargetsMappedMergesPrefix(linkingStatically, linkShared, targets, [firstMapping] + remainingMappings, i);
        AppendTwice(old(history),
                    TargetsMappedMerges(linkingStatically, linkShared, targets[..i], [firstMapping] + remainingMappings),
                    MappedMerges(linkingStatically, linkShared, targets[i], [firstMapping] + remainingMappings));
        ReplayAppend(old(State()),
                     TargetsMappedMerges(linkingStatically, linkShared, targets[..i], [firstMapping] + remainingMappings),
                     MappedMerges(linkingStatically, linkShared, targets[i], [firstMapping] + remainingMappings));
        i := i + 1;
      }
      assert targets[..i] == targets;
    }

    /**
     * `addTransitiveArgs(args)`: the four mandatory sets of `args` are always added
     * transitively; an optional sub-builder is created, if still null, and fed only
     * when the corresponding part of `args` is non-null.
     */
    method AddTransitiveArgs(args: CcLinkParams)
      requires Valid()
      modifies this
      ensures Valid() && history == old(history) + [MergedArgs(args)]
      ensures linkOptsBuilder == WithTransitive(old(linkOptsBuilder), args.linkOpts)
      ensures linkstampsBuilder == WithTransitive(old(linkstampsBuilder), args.linkstamps)
      ensures librariesBuilder == WithTransitive(old(librariesBuilder), args.libraries)
      ensures executionDynamicLibrariesBuilder
              == WithTransitive(old(executionDynamicLibrariesBuilder), args.executionDynamicLibraries)
      ensures args.extraLinkTimeLibraries.None? ==>
                extraLinkTimeLibrariesBuilder == old(extraLinkTimeLibrariesBuilder)
      ensures args.extraLinkTimeLibraries.Some? ==>
                extraLinkTimeLibrariesBuilder
                == Some(WithTransitive(Lazy(old(extraLinkTimeLibrariesBuilder)), args.extraLinkTimeLibraries.value))
      ensures args.nonCodeInputs.None? ==> nonCodeInputsBuilder == old(nonCodeInputsBuilder)
      ensures args.nonCodeInputs.Some? ==>
                nonCodeInputsBuilder == Some(WithTransitive(Lazy(old(nonCodeInputsBuilder)), args.nonCodeInputs.value))
      ensures localLinkoptsBuilder == old(localLinkoptsBuilder) && built == old(built)
      ensures State() == Step(old(State()), MergedArgs(args))
    {
      ghost var before := State();
      linkOptsBuilder := WithTransitive(linkOptsBuilder, args.linkOpts);
      linkstampsBuilder := WithTransitive(linkstampsBuilder, args.linkstamps);
      librariesBuilder := WithTransitive(librariesBuilder, args.libraries);
      executionDynamicLibrariesBuilder :=
        WithTransitive(executionDynamicLibrariesBuilder, args.executionDynamicLibraries);
      if args.extraLinkTimeLibraries.Some? {
        extraLinkTimeLibrariesBuilder :=
          Some(WithTransitive(Lazy(extraLinkTimeLibrariesBuilder), args.extraLinkTimeLibraries.value));
      }
      if args.nonCodeInputs.Some? {
        nonCodeInputsBuilder := Some(WithTransitive(Lazy(nonCodeInputsBuilder), args.nonCodeInputs.value));
      }
      Record(before, MergedArgs(args));
    }

    /** `addLinkOpts(linkOpts)`: collects options of this target, to become one entry at build time. */
    method AddLinkOpts(linkOpts: seq<string>)
      requires Valid()
      modifies this
      ensures Valid() && history == old(history) + [AddedLinkOpts(linkOpts)]
      ensures localLinkoptsBuilder == old(localLinkoptsBuilder) + linkOpts
      ensures State() == Step(old(State()), AddedLinkOpts(linkOpts))
    {
      ghost var before := State();
      localLinkoptsBuilder := localLinkoptsBuilder + linkOpts;
      Record(before, AddedLinkOpts(linkOpts));
    }

    /**
     * `addLinkstamps(linkstamps, context)`: one linkstamp per artifact, in iteration
     * order. `declaredIncludeSrcs` is what the context's `getDeclaredIncludeSrcs()`
     * yields. When it is null and there is an artifact, the first linkstamp's
     * constructor throws and nothing is added.
     */
    method AddLinkstamps(linkstamps: NestedSet<Artifact>, declaredIncludeSrcs: Option<NestedSet<Artifact>>)
      returns (r: Result<(), NullPointer>)
      requires Valid()
      modifies this
      ensures Valid()
      ensures r.Failure? <==> declaredIncludeSrcs.None? && Elements(linkstamps) != []
      ensures declaredIncludeSrcs.None? ==> State() == old(State()) && history == old(history)
      ensures declaredIncludeSrcs.Some? ==>
                history == old(history) + [AddedLinkstamps(Elements(linkstamps), declaredIncludeSrcs.value)]
      ensures declaredIncludeSrcs.Some? ==>
                Elements(linkstampsBuilder)
                == Elements(old(linkstampsBuilder)) + LinkstampsFor(Elements(linkstamps), declaredIncludeSrcs.value)
      ensures declaredIncludeSrcs.Some? ==>
                State() == Step(old(State()), AddedLinkstamps(Elements(linkstamps), declaredIncludeSrcs.value))
    {
      var artifacts := Elements(linkstamps);
      var added := AddEachLinkstamp(linkstampsBuilder, artifacts, declaredIncludeSrcs);
      if added.Failure? {
        return Failure(added.error);
      }
      if declaredIncludeSrcs.Some? {
        ghost var before := State();
        linkstampsBuilder := added.value;
        Record(before, AddedLinkstamps(artifacts, declaredIncludeSrcs.value));
      }
      r := Success(());
    }

    /** `addLibrary(library)`. */
    method AddLibrary(library: LibraryToLink)
      requires Valid()
      modifies this
      ensures Valid() && history == old(history) + [AddedLibrary(library)]
      ensures Elements(librariesBuilder) == Elements(old(librariesBuilder)) + [library]
      ensures State() == Step(old(State()), AddedLibrary(library))
    {
      ghost var before := State();
      librariesBuilder := WithDirect(librariesBuilder, library);
      Record(before, AddedLibrary(library));
    }

    /** `addLibraries(libraries)`. */
    method AddLibraries(libraries: seq<LibraryToLink>)
      requires Valid()
      modifies this
      ensures Valid() && history == old(history) + [AddedLibraries(libraries)]
      ensures Elements(librariesBuilder) == Elements(old(librariesBuilder)) + libraries
      ensures State() == Step(old(State()), AddedLibraries(libraries))
    {
      ghost var before := State();
      librariesBuilder := AddAll(librariesBuilder, libraries);
      Record(before, AddedLibraries(libraries));
    }

    /** `addExecutionDynamicLibraries(libraries)`. */
    method AddExecutionDynamicLibraries(libraries: seq<Artifact>)
      requires Valid()
      modifies this
      ensures Valid() && history == old(history) + [AddedExecutionDynamicLibraries(libraries)]
      ensures Elements(executionDynamicLibrariesBuilder)
              == Elements(old(executionDynamicLibrariesBuilder)) + libraries
      ensures State() == Step(old(State()), AddedExecutionDynamicLibraries(libraries))
    {
      ghost var before := State();
      executionDynamicLibrariesBuilder := AddAll(executionDynamicLibrariesBuilder, libraries);
      Record(before, AddedExecutionDynamicLibraries(libraries));
    }

    /** `addExtraLinkTimeLibrary(e)`: creates the sub-builder on first use, then adds `e`. */
    method AddExtraLinkTimeLibrary(e: ExtraLinkTimeLibrary)
      requires Valid()
      modifies this
      ensures Valid() && history == old(history) + [AddedExtraLinkTimeLibrary(e)]
      ensures extraLinkTimeLibrariesBuilder.Some?
      ensures Elements(extraLinkTimeLibrariesBuilder.value) == Elements(Lazy(old(extraLinkTimeLibrariesBuilder))) + [e]
      ensures State() == Step(old(State()), AddedExtraLinkTimeLibrary(e))
    {
      ghost var before := State();
      if extraLinkTimeLibrariesBuilder.None? {
        extraLinkTimeLibrariesBuilder := Some(Empty);
      }
      extraLinkTimeLibrariesBuilder := Some(WithDirect(extraLinkTimeLibrariesBuilder.value, e));
      Record(before, AddedExtraLinkTimeLibrary(e));
    }

    /** `addNonCodeInputs(nonCodeInputs)`: creates the sub-builder on first use, even for no inputs. */
    method AddNonCodeInputs(nonCodeInputs: seq<Artifact>)
      requires Valid()
      modifies this
      ensures Valid() && history == old(history) + [AddedNonCodeInputs(nonCodeInputs)]
      ensures nonCodeInputsBuilder.Some?
      ensures Elements(nonCodeInputsBuilder.value) == Elements(Lazy(old(nonCodeInputsBuilder))) + nonCodeInputs
      ensures State() == Step(old(State()), AddedNonCodeInputs(nonCodeInputs))
    {
      ghost var before := State();
      if nonCodeInputsBuilder.None? {
        nonCodeInputsBuilder := Some(Empty);
      }
      nonCodeInputsBuilder := Some(AddAll(nonCodeInputsBuilder.value, nonCodeInputs));
      Record(before, AddedNonCodeInputs(nonCodeInputs));
    }
  }

  /**
   * The loop of `addLinkstamps`: constructs a linkstamp for each artifact and adds
   * it, one after the other. The include set is the same for every linkstamp, so
   * a null one fails on the first artifact, before anything is added.
   */
  method AddEachLinkstamp(linkstampsBuilder: NestedSet<Linkstamp>, artifacts: seq<Artifact>,
                          declaredIncludeSrcs: Option<NestedSet<Artifact>>)
    returns (r: Result<NestedSet<Linkstamp>, NullPointer>)
    ensures r.Failure? <==> declaredIncludeSrcs.None? && artifacts != []
    ensures declaredIncludeSrcs.Some? ==>
              r == Success(AddAll(linkstampsBuilder, LinkstampsFor(artifacts, declaredIncludeSrcs.value)))
    ensures declaredIncludeSrcs.None? && artifacts == [] ==> r == Success(linkstampsBuilder)
  {
    var added := linkstampsBuilder;
    for i := 0 to |artifacts|
      invariant declaredIncludeSrcs.Some? || i == 0
      invariant declaredIncludeSrcs.Some? ==>
                  added == AddAll(linkstampsBuilder, LinkstampsFor(artifacts[..i], declaredIncludeSrcs.value))
      invariant declaredIncludeSrcs.None? ==> added == linkstampsBuilder
    {
      var linkstamp := NewLinkstamp(Some(artifacts[i]), declaredIncludeSrcs);
      if linkstamp.Failure? {
        return Failure(linkstamp.error);
      }
      LinkstampsForPrefix(artifacts, declaredIncludeSrcs.value, i);
      added := WithDirect(added, linkstamp.value);
    }
    assert artifacts[..|artifacts|] == artifacts;
    r := Success(added);
  }

  /**
   * A fresh builder that merges the providers of some targets builds successfully,
   * and its result carries exactly the sets those merges collected.
   */
  method TargetsReachBuild(linkingStatically: bool, linkShared: bool, targets: seq<Target>)
    returns (r: Result<CcLinkParams, BuildError>)
    ensures r.Success?
    ensures var merged := Replay(Initial(linkingStatically, linkShared),
                                 TargetsMerges(linkingStatically, linkShared, targets));
            && r.value.libraries == merged.librariesBuilder
            && r.value.linkstamps == merged.linkstampsBuilder
            && r.value.executionDynamicLibraries == merged.executionDynamicLibrariesBuilder
            && r.value.extraLinkTimeLibraries == merged.extraLinkTimeLibrariesBuilder
            && r.value.nonCodeInputs == merged.nonCodeInputsBuilder
            && r.value.linkOpts == merged.linkOptsBuilder
  {
    var b := new Builder(linkingStatically, linkShared);
    b.AddTransitiveTargets(targets);
    r := b.Build();
  }

  /**
   * A builder can be built once; asking again fails. The first result has the
   * same parts as `EMPTY`.
   */
  method SecondBuildFails(linkingStatically: bool, linkShared: bool)
    returns (first: Result<CcLinkParams, BuildError>, second: Result<CcLinkParams, BuildError>)
    ensures first == Success(EMPTY)
    ensures second == Failure(IllegalState)
  {
    var b := new Builder(linkingStatically, linkShared);
    first := b.Build();
    second := b.Build();
  }

  /**
   * Two targets that contribute the same options give two distinct entries, and
   * a target depending on both links with the options twice.
   */
  method SameOptionsStayDistinct(opts: seq<string>) returns (params: CcLinkParams)
    requires opts != []
    ensures |Elements(params.linkOpts)| == 2
    ensures Elements(params.linkOpts)[0] != Elements(params.linkOpts)[1]
    ensures Elements(params.linkOpts)[0].options == Elements(params.linkOpts)[1].options == opts
    ensures FlattenedLinkopts(params) == opts + opts
  {
    var left := new Builder(false, false);
    left.AddLinkOpts(opts);
    var fromLeft := left.Build();
    var right := new Builder(false, false);
    right.AddLinkOpts(opts);
    var fromRight := right.Build();
    var dependent := new Builder(false, false);
    dependent.AddTransitiveArgs(fromLeft.value);
    dependent.AddTransitiveArgs(fromRight.value);
    var result := dependent.Build();
    params := result.value;
    FlattenedTransitive(WithTransitive(Empty, fromLeft.value.linkOpts), fromRight.value.linkOpts);
    FlattenedTransitive(Empty, fromLeft.value.linkOpts);
    FlattenedDirect(Empty, fromLeft.value.linkOpts.item);
    FlattenedDirect(Empty, fromRight.value.linkOpts.item);
  }
}
