/**
 * The immutable parameters passed to the C++ linker: link options, linkstamps,
 * libraries, execution-time dynamic libraries, and the two optional parts
 * (extra link-time libraries and non-code inputs) that are null when absent.
 */
module LinkParams {
  import opened Wrappers
  import opened NestedSets

  /** An output or source file of the build; only its identity matters here. */
  datatype Artifact = Artifact(execPath: string)

  /** A library handed to the linker. */
  datatype LibraryToLink = LibraryToLink(artifact: Artifact)

  /** A library that is itself built at link time. */
  datatype ExtraLinkTimeLibrary = ExtraLinkTimeLibrary(name: string)

  /** The collection of extra link-time libraries, recorded like a nested set. */
  type ExtraLinkTimeLibraries = NestedSet<ExtraLinkTimeLibrary>

  /**
   * The link options contributed by one configured target. Entries are compared
   * by object identity, so two targets that contribute the same options give two
   * distinct entries that a nested set will not merge.
   */
  class LinkOptions {
    const options: seq<string>

    /** `LinkOptions.of`: a new entry holding a copy of the options. */
    constructor (options: seq<string>)
      ensures this.options == options
    {
      this.options := options;
    }
  }

  /** Java's `NullPointerException` from a failed not-null check. */
  datatype NullPointer = NullPointer

  /** A linkstamp together with the headers it may include. */
  datatype Linkstamp = Linkstamp(artifact: Artifact, declaredIncludeSrcs: NestedSet<Artifact>)
  {
    /**
     * `equals(Object)`: `obj` is `None` for null or for an object that is not a
     * linkstamp. Equal when it is the same object, or when both components agree.
     */
    function Equals(obj: Option<Linkstamp>): (r: bool)
      ensures r <==>
                obj.Some? && artifact == obj.value.artifact && declaredIncludeSrcs == obj.value.declaredIncludeSrcs
    {
      match obj
      case None => false
      case Some(other) =>
        this == other || (artifact == other.artifact && declaredIncludeSrcs == other.declaredIncludeSrcs)
    }
  }

  /** The linkstamp constructor: both arguments must be non-null. */
  function NewLinkstamp(artifact: Option<Artifact>, declaredIncludeSrcs: Option<NestedSet<Artifact>>)
    : (r: Result<Linkstamp, NullPointer>)
    ensures r.Success? <==> artifact.Some? && declaredIncludeSrcs.Some?
    ensures r.Success? ==>
              r.value.artifact == artifact.value && r.value.declaredIncludeSrcs == declaredIncludeSrcs.value
  {
    match artifact
    case None => Failure(NullPointer)
    case Some(a) =>
      match declaredIncludeSrcs
      case None => Failure(NullPointer)
      case Some(includes) => Success(Linkstamp(a, includes))
  }

  /** Linkstamp equality is an equivalence relation. */
  lemma LinkstampEqualsIsEquivalence(a: Linkstamp, b: Linkstamp, c: Linkstamp)
    ensures a.Equals(Some(a))
    ensures a.Equals(Some(b)) ==> b.Equals(Some(a))
    ensures a.Equals(Some(b)) && b.Equals(Some(c)) ==> a.Equals(Some(c))
    ensures !a.Equals(None)
  {
  }

  datatype CcLinkParams = CcLinkParams(
    linkOpts: NestedSet<LinkOptions>,
    linkstamps: NestedSet<Linkstamp>,
    libraries: NestedSet<LibraryToLink>,
    executionDynamicLibraries: NestedSet<Artifact>,
    extraLinkTimeLibraries: Option<ExtraLinkTimeLibraries>,
    nonCodeInputs: Option<NestedSet<Artifact>>)

  /** The parameters with nothing in them; both optional parts are null. */
  const EMPTY: CcLinkParams := CcLinkParams(Empty, Empty, Empty, Empty, None, None)

  /** The options of a sequence of entries, one entry after the other. */
  function Concat(entries: seq<LinkOptions>): seq<string>
  {
    if entries == [] then [] else entries[0].options + Concat(entries[1..])
  }

  /** The options of a nested set of entries, in iteration order. */
  function Flattened(linkOpts: NestedSet<LinkOptions>): seq<string>
  {
    Concat(Elements(linkOpts))
  }

  /** `flattenedLinkopts()`: every entry's options, in the iteration order of the link options. */
  function FlattenedLinkopts(params: CcLinkParams): seq<string>
  {
    Flattened(params.linkOpts)
  }

  /** Flattening distributes over the concatenation of entries. */
  lemma {:induction false} ConcatAppend(xs: seq<LinkOptions>, ys: seq<LinkOptions>)
    ensures Concat(xs + ys) == Concat(xs) + Concat(ys)
  {
    if xs == [] {
      assert xs + ys == ys;
    } else {
      assert (xs + ys)[1..] == xs[1..] + ys;
      ConcatAppend(xs[1..], ys);
    }
  }

  /** Flattening a transitive addition appends the nested set's options. */
  lemma FlattenedTransitive(ns: NestedSet<LinkOptions>, nested: NestedSet<LinkOptions>)
    ensures Flattened(WithTransitive(ns, nested)) == Flattened(ns) + Flattened(nested)
  {
    ConcatAppend(Elements(ns), Elements(nested));
  }

  /** Flattening a direct addition appends the entry's own options last. */
  lemma FlattenedDirect(ns: NestedSet<LinkOptions>, entry: LinkOptions)
    ensures Flattened(WithDirect(ns, entry)) == Flattened(ns) + entry.options
  {
    ConcatAppend(Elements(ns), [entry]);
    assert Concat([entry]) == entry.options + Concat([]);
  }

  /** Flattening EMPTY gives no options. */
  lemma EmptyHasNoOptions()
    ensures FlattenedLinkopts(EMPTY) == []
    ensures EMPTY.extraLinkTimeLibraries.None? && EMPTY.nonCodeInputs.None?
  {
  }

  /** A store of parameters, one per (linking statically, linking shared) pair; its `get` is outside this model. */
  datatype Store = Store(get: (bool, bool) -> CcLinkParams)

  /** The provider a target may expose; its store may be null. */
  datatype CcLinkParamsInfo = CcLinkParamsInfo(store: Option<Store>)

  /** A dependency target; `linkParamsInfo` is what looking up its provider returns. */
  datatype Target = Target(name: string, linkParamsInfo: Option<CcLinkParamsInfo>)

  /** A function from a target to its store, or null. */
  type Mapping = Target -> Option<Store>
}
