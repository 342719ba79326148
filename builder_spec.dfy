/**
 * The link-parameter builder as a value: its state, the effect of each of its
 * operations on that state, and what a whole sequence of operations produces.
 */
module BuilderSpec {
  import opened Wrappers
  import opened NestedSets
  import opened LinkParams

  /**
   * The builder's fields. The two optional sub-builders are `None` until first
   * used, as the source leaves them null to save space.
   */
  datatype BuilderState = BuilderState(
    linkingStatically: bool,
    linkShared: bool,
    localLinkoptsBuilder: seq<string>,
    linkOptsBuilder: NestedSet<LinkOptions>,
    linkstampsBuilder: NestedSet<Linkstamp>,
    librariesBuilder: NestedSet<LibraryToLink>,
    executionDynamicLibrariesBuilder: NestedSet<Artifact>,
    extraLinkTimeLibrariesBuilder: Option<ExtraLinkTimeLibraries>,
    nonCodeInputsBuilder: Option<NestedSet<Artifact>>,
    built: bool)

  /** One change made to a builder, as recorded in its history. */
  datatype Event =
    | AddedLinkOpts(opts: seq<string>)
    | MergedArgs(args: CcLinkParams)
    | AddedLinkstamps(artifacts: seq<Artifact>, declaredIncludeSrcs: NestedSet<Artifact>)
    | AddedLibrary(library: LibraryToLink)
    | AddedLibraries(libraries: seq<LibraryToLink>)
    | AddedExecutionDynamicLibraries(dynamicLibraries: seq<Artifact>)
    | AddedExtraLinkTimeLibrary(extra: ExtraLinkTimeLibrary)
    | AddedNonCodeInputs(inputs: seq<Artifact>)
    | Built(entry: LinkOptions)

  /** A fresh builder: nothing collected, optional sub-builders absent, not built. */
  function Initial(linkingStatically: bool, linkShared: bool): BuilderState
  {
    BuilderState(linkingStatically, linkShared, [], Empty, Empty, Empty, Empty, None, None, false)
  }

  /** A lazily created sub-builder: the existing one, or a new empty one. */
  function Lazy<T>(builder: Option<NestedSet<T>>): NestedSet<T>
  {
    match builder
    case None => Empty
    case Some(ns) => ns
  }

  /** One linkstamp per artifact, all sharing the same declared includes. */
  function LinkstampsFor(artifacts: seq<Artifact>, declaredIncludeSrcs: NestedSet<Artifact>): seq<Linkstamp>
    decreases |artifacts|
  {
    if artifacts == [] then []
    else LinkstampsFor(artifacts[..|artifacts| - 1], declaredIncludeSrcs)
         + [Linkstamp(artifacts[|artifacts| - 1], declaredIncludeSrcs)]
  }

  /** `addTransitiveArgs`: the four mandatory sets always, an optional one only when present. */
  function Merge(s: BuilderState, args: CcLinkParams): BuilderState
  {
    s.(linkOptsBuilder := WithTransitive(s.linkOptsBuilder, args.linkOpts),
       linkstampsBuilder := WithTransitive(s.linkstampsBuilder, args.linkstamps),
       librariesBuilder := WithTransitive(s.librariesBuilder, args.libraries),
       executionDynamicLibrariesBuilder :=
         WithTransitive(s.executionDynamicLibrariesBuilder, args.executionDynamicLibraries),
       extraLinkTimeLibrariesBuilder :=
         match args.extraLinkTimeLibraries
         case None => s.extraLinkTimeLibrariesBuilder
         case Some(extra) => Some(WithTransitive(Lazy(s.extraLinkTimeLibrariesBuilder), extra)),
       nonCodeInputsBuilder :=
         match args.nonCodeInputs
         case None => s.nonCodeInputsBuilder
         case Some(inputs) => Some(WithTransitive(Lazy(s.nonCodeInputsBuilder), inputs)))
  }

  /** The effect of one event on the builder's state. */
  function Step(s: BuilderState, e: Event): BuilderState
  {
    match e
    case AddedLinkOpts(opts) => s.(localLinkoptsBuilder := s.localLinkoptsBuilder + opts)
    case MergedArgs(args) => Merge(s, args)
    case AddedLinkstamps(artifacts, includes) =>
      s.(linkstampsBuilder := AddAll(s.linkstampsBuilder, LinkstampsFor(artifacts, includes)))
    case AddedLibrary(library) => s.(librariesBuilder := WithDirect(s.librariesBuilder, library))
    case AddedLibraries(libraries) => s.(librariesBuilder := AddAll(s.librariesBuilder, libraries))
    case AddedExecutionDynamicLibraries(libraries) =>
      s.(executionDynamicLibrariesBuilder := AddAll(s.executionDynamicLibrariesBuilder, libraries))
    case AddedExtraLinkTimeLibrary(extra) =>
      s.(extraLinkTimeLibrariesBuilder := Some(WithDirect(Lazy(s.extraLinkTimeLibrariesBuilder), extra)))
    case AddedNonCodeInputs(inputs) =>
      s.(nonCodeInputsBuilder := Some(AddAll(Lazy(s.nonCodeInputsBuilder), inputs)))
    case Built(entry) =>
      s.(built := true,
         linkOptsBuilder :=
           if s.localLinkoptsBuilder == [] then s.linkOptsBuilder
           else WithDirect(s.linkOptsBuilder, entry))
  }

  /** The state reached from `s` by the events of `history`, oldest first. */
  function Replay(s: BuilderState, history: seq<Event>): BuilderState
    decreases |history|
  {
    if history == [] then s
    else Step(Replay(s, history[..|history| - 1]), history[|history| - 1])
  }

  /** The parameters that `build()` hands back for a state in which it has run. */
  function Output(s: BuilderState): CcLinkParams
  {
    CcLinkParams(s.linkOptsBuilder, s.linkstampsBuilder, s.librariesBuilder,
                 s.executionDynamicLibrariesBuilder, s.extraLinkTimeLibrariesBuilder,
                 s.nonCodeInputsBuilder)
  }

  /** How many successful builds a history holds. */
  function BuildCount(history: seq<Event>): nat
    decreases |history|
  {
    if history == [] then 0
    else BuildCount(history[..|history| - 1]) + (if history[|history| - 1].Built? then 1 else 0)
  }

  /** The options added with `addLinkOpts`, in call order. */
  function LocalLinkopts(history: seq<Event>): seq<string>
    decreases |history|
  {
    if history == [] then []
    else
      var last := history[|history| - 1];
      LocalLinkopts(history[..|history| - 1]) + (if last.AddedLinkOpts? then last.opts else [])
  }

  /** The flattened options of every merged parameter set, in merge order. */
  function MergedLinkopts(history: seq<Event>): seq<string>
    decreases |history|
  {
    if history == [] then []
    else
      var last := history[|history| - 1];
      MergedLinkopts(history[..|history| - 1]) + (if last.MergedArgs? then FlattenedLinkopts(last.args) else [])
  }

  /** Whether an event brings extra link-time libraries into the builder. */
  predicate SuppliesExtraLinkTimeLibraries(e: Event)
  {
    e.AddedExtraLinkTimeLibrary? || (e.MergedArgs? && e.args.extraLinkTimeLibraries.Some?)
  }

  /** Whether an event brings non-code inputs into the builder. */
  predicate SuppliesNonCodeInputs(e: Event)
  {
    e.AddedNonCodeInputs? || (e.MergedArgs? && e.args.nonCodeInputs.Some?)
  }

  /** No call so far brought extra link-time libraries. */
  predicate NoExtraLinkTimeLibrariesSupplied(history: seq<Event>)
  {
    forall i | 0 <= i < |history| :: !SuppliesExtraLinkTimeLibraries(history[i])
  }

  /** No call so far brought non-code inputs. */
  predicate NoNonCodeInputsSupplied(history: seq<Event>)
  {
    forall i | 0 <= i < |history| :: !SuppliesNonCodeInputs(history[i])
  }

  /**
   * What a builder's fields must say about the calls made on it: it has been
   * built at most once; its local options are those of every `addLinkOpts` call;
   * until it is built, its link options flatten to those of the merged
   * parameters, in merge order; and each optional sub-builder is null exactly
   * when no call supplied anything for it.
   */
  predicate Consistent(s: BuilderState, history: seq<Event>)
  {
    && BuildCount(history) == (if s.built then 1 else 0)
    && s.localLinkoptsBuilder == LocalLinkopts(history)
    && (!s.built ==> Flattened(s.linkOptsBuilder) == MergedLinkopts(history))
    && (s.extraLinkTimeLibrariesBuilder.None? <==> NoExtraLinkTimeLibrariesSupplied(history))
    && (s.nonCodeInputsBuilder.None? <==> NoNonCodeInputsSupplied(history))
  }

  /** `add(store)`: what a possibly-null store contributes. */
  function StoreMerges(linkingStatically: bool, linkShared: bool, store: Option<Store>): seq<Event>
  {
    match store
    case None => []
    case Some(st) => [MergedArgs(st.get(linkingStatically, linkShared))]
  }

  /** `addTransitiveProvider`: what a possibly-null provider contributes. */
  function ProviderMerges(linkingStatically: bool, linkShared: bool, provider: Option<CcLinkParamsInfo>)
    : seq<Event>
  {
    match provider
    case None => []
    case Some(info) => StoreMerges(linkingStatically, linkShared, info.store)
  }

  /** `addTransitiveTargets(targets)`: each target's provider, in order. */
  function TargetsMerges(linkingStatically: bool, linkShared: bool, targets: seq<Target>): seq<Event>
    decreases |targets|
  {
    if targets == [] then []
    else TargetsMerges(linkingStatically, linkShared, targets[..|targets| - 1])
         + ProviderMerges(linkingStatically, linkShared, targets[|targets| - 1].linkParamsInfo)
  }

  /** The index of the first mapping that yields a store for `target`, if any. */
  function FirstMatch(target: Target, mappings: seq<Mapping>): (k: Option<nat>)
    ensures k.Some? ==>
              k.value < |mappings| && mappings[k.value](target).Some?
              && forall j | 0 <= j < k.value :: mappings[j](target).None?
    ensures k.None? ==> forall j | 0 <= j < |mappings| :: mappings[j](target).None?
    decreases |mappings|
  {
    if mappings == [] then None
    else if mappings[0](target).Some? then Some(0)
    else
      match FirstMatch(target, mappings[1..])
      case None => None
      case Some(k) => Some(k + 1)
  }

  /** The first match is determined: it is the index before which every mapping yields null. */
  lemma FirstMatchIs(target: Target, mappings: seq<Mapping>, k: nat)
    requires k <= |mappings|
    requires forall j | 0 <= j < k :: mappings[j](target).None?
    requires k < |mappings| ==> mappings[k](target).Some?
    ensures FirstMatch(target, mappings) == if k < |mappings| then Some(k) else None
  {
  }

  /** `addTransitiveTarget(target, mappings...)`: only the first store found is merged. */
  function MappedMerges(linkingStatically: bool, linkShared: bool, target: Target, mappings: seq<Mapping>)
    : seq<Event>
  {
    match FirstMatch(target, mappings)
    case None => []
    case Some(k) => StoreMerges(linkingStatically, linkShared, mappings[k](target))
  }

  /** When the first mapping yields a store, that store is the one merged. */
  lemma MappedMergesFirst(linkingStatically: bool, linkShared: bool, target: Target,
                          firstMapping: Mapping, remainingMappings: seq<Mapping>)
    requires firstMapping(target).Some?
    ensures MappedMerges(linkingStatically, linkShared, target, [firstMapping] + remainingMappings)
            == StoreMerges(linkingStatically, linkShared, firstMapping(target))
  {
    FirstMatchIs(target, [firstMapping] + remainingMappings, 0);
  }

  /**
   * When the first mapping and the remaining ones before `k` yield null, the
   * store merged is that of remaining mapping `k`, or none when `k` is past the end.
   */
  lemma MappedMergesAfterFirst(linkingStatically: bool, linkShared: bool, target: Target,
                               firstMapping: Mapping, remainingMappings: seq<Mapping>, k: nat)
    requires firstMapping(target).None?
    requires k <= |remainingMappings|
    requires forall j | 0 <= j < k :: remainingMappings[j](target).None?
    requires k < |remainingMappings| ==> remainingMappings[k](target).Some?
    ensures MappedMerges(linkingStatically, linkShared, target, [firstMapping] + remainingMappings)
            == if k < |remainingMappings| then StoreMerges(linkingStatically, linkShared, remainingMappings[k](target))
               else []
  {
    var mappings := [firstMapping] + remainingMappings;
    assert mappings[1..] == remainingMappings;
    FirstMatchIs(target, remainingMappings, k);
  }

  /** `addTransitiveTargets(targets, mappings...)`: each target in order. */
  function TargetsMappedMerges(linkingStatically: bool, linkShared: bool, targets: seq<Target>,
                               mappings: seq<Mapping>): seq<Event>
    decreases |targets|
  {
    if targets == [] then []
    else TargetsMappedMerges(linkingStatically, linkShared, targets[..|targets| - 1], mappings)
         + MappedMerges(linkingStatically, linkShared, targets[|targets| - 1], mappings)
  }

  /** Appending to a history in two steps is appending the two parts at once. */
  lemma AppendTwice(history: seq<Event>, first: seq<Event>, second: seq<Event>)
    ensures history + first + second == history + (first + second)
  {
  }

  /** Unfolds `TargetsMerges` at the end of a prefix. */
  lemma TargetsMergesPrefix(linkingStatically: bool, linkShared: bool, targets: seq<Target>, i: nat)
    requires i < |targets|
    ensures TargetsMerges(linkingStatically, linkShared, targets[..i + 1])
            == TargetsMerges(linkingStatically, linkShared, targets[..i])
               + ProviderMerges(linkingStatically, linkShared, targets[i].linkParamsInfo)
  {
    assert targets[..i + 1][..i] == targets[..i];
  }

  /** Unfolds `TargetsMappedMerges` at the end of a prefix. */
  lemma TargetsMappedMergesPrefix(linkingStatically: bool, linkShared: bool, targets: seq<Target>,
                                  mappings: seq<Mapping>, i: nat)
    requires i < |targets|
    ensures TargetsMappedMerges(linkingStatically, linkShared, targets[..i + 1], mappings)
            == TargetsMappedMerges(linkingStatically, linkShared, targets[..i], mappings)
               + MappedMerges(linkingStatically, linkShared, targets[i], mappings)
  {
    assert targets[..i + 1][..i] == targets[..i];
  }

  /** Unfolds `LinkstampsFor` at the end of a prefix. */
  lemma LinkstampsForPrefix(artifacts: seq<Artifact>, declaredIncludeSrcs: NestedSet<Artifact>, i: nat)
    requires i < |artifacts|
    ensures LinkstampsFor(artifacts[..i + 1], declaredIncludeSrcs)
            == LinkstampsFor(artifacts[..i], declaredIncludeSrcs) + [Linkstamp(artifacts[i], declaredIncludeSrcs)]
  {
    assert artifacts[..i + 1][..i] == artifacts[..i];
  }

  // ----- Properties -----

  /** Replaying two runs of calls is replaying the first and then, from there, the second. */
  lemma {:induction false} ReplayAppend(s: BuilderState, first: seq<Event>, second: seq<Event>)
    ensures Replay(s, first + second) == Replay(Replay(s, first), second)
    decreases |second|
  {
    if second == [] {
      assert first + second == first;
    } else {
      var n := |second| - 1;
      assert (first + second)[..|first + second| - 1] == first + second[..n];
      ReplayAppend(s, first, second[..n]);
    }
  }

  /** What one more event does to the summaries of a history. */
  lemma HistoryAppend(history: seq<Event>, e: Event)
    ensures BuildCount(history + [e]) == BuildCount(history) + (if e.Built? then 1 else 0)
    ensures LocalLinkopts(history + [e]) == LocalLinkopts(history) + (if e.AddedLinkOpts? then e.opts else [])
    ensures MergedLinkopts(history + [e])
            == MergedLinkopts(history) + (if e.MergedArgs? then FlattenedLinkopts(e.args) else [])
    ensures NoExtraLinkTimeLibrariesSupplied(history + [e]) <==>
              NoExtraLinkTimeLibrariesSupplied(history) && !SuppliesExtraLinkTimeLibraries(e)
    ensures NoNonCodeInputsSupplied(history + [e]) <==>
              NoNonCodeInputsSupplied(history) && !SuppliesNonCodeInputs(e)
  {
    assert (history + [e])[..|history|] == history;
  }

  /** A fresh builder is consistent with an empty history. */
  lemma InitialIsConsistent(linkingStatically: bool, linkShared: bool)
    ensures Consistent(Initial(linkingStatically, linkShared), [])
  {
  }

  /**
   * Every operation keeps a builder consistent with its history, provided a
   * build only happens on a builder not yet built.
   */
  lemma StepPreservesConsistency(s: BuilderState, history: seq<Event>, e: Event)
    requires Consistent(s, history)
    requires e.Built? ==> !s.built
    ensures Consistent(Step(s, e), history + [e])
  {
    HistoryAppend(history, e);
    if e.MergedArgs? {
      FlattenedTransitive(s.linkOptsBuilder, e.args.linkOpts);
    }
  }

  /** Any sequence of calls with at most one build leaves a fresh builder consistent with it. */
  lemma {:induction false} ReplayIsConsistent(linkingStatically: bool, linkShared: bool, history: seq<Event>)
    requires BuildCount(history) <= 1
    ensures Consistent(Replay(Initial(linkingStatically, linkShared), history), history)
    decreases |history|
  {
    if history != [] {
      var n := |history| - 1;
      HistoryAppend(history[..n], history[n]);
      assert history[..n] + [history[n]] == history;
      ReplayIsConsistent(linkingStatically, linkShared, history[..n]);
      StepPreservesConsistency(Replay(Initial(linkingStatically, linkShared), history[..n]), history[..n], history[n]);
    }
  }

  /** No local options were collected exactly when every `addLinkOpts` call passed none. */
  lemma {:induction false} NoLocalLinkoptsIff(history: seq<Event>)
    ensures LocalLinkopts(history) == [] <==>
              forall i | 0 <= i < |history| :: history[i].AddedLinkOpts? ==> history[i].opts == []
    decreases |history|
  {
    if history != [] {
      var n := |history| - 1;
      NoLocalLinkoptsIff(history[..n]);
      assert forall i | 0 <= i < n :: history[..n][i] == history[i];
    }
  }

  /**
   * `build()` on a consistent builder appends the local options as one last entry
   * exactly when there are any; flattened, the result lists the dependencies'
   * options in merge order and then the target's own options.
   */
  lemma BuildAppendsLocalEntry(s: BuilderState, history: seq<Event>, entry: LinkOptions)
    requires Consistent(s, history) && !s.built
    requires entry.options == s.localLinkoptsBuilder
    ensures Elements(Output(Step(s, Built(entry))).linkOpts)
            == Elements(s.linkOptsBuilder) + (if LocalLinkopts(history) == [] then [] else [entry])
    ensures FlattenedLinkopts(Output(Step(s, Built(entry)))) == MergedLinkopts(history) + LocalLinkopts(history)
  {
    FlattenedDirect(s.linkOptsBuilder, entry);
  }

  /** A builder to which nothing was added builds parameters with the same parts as `EMPTY`. */
  lemma NothingAddedBuildsEmpty(linkingStatically: bool, linkShared: bool, entry: LinkOptions)
    ensures Output(Step(Initial(linkingStatically, linkShared), Built(entry))) == EMPTY
  {
  }
}
