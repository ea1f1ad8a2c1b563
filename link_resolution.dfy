/**
 * Link resolution for markdown link destinations, with the bookkeeping of the
 * note dependency graph (LinkElementProcessor.kt).
 *
 * A destination is an anchor, a known note (looked up in the slug index), or
 * anything else, which is resolved against an optional base URI. A note hit
 * appends one edge to the forward map (`dependingLinks`, current file to target
 * file) and one to the reverse map (`linkDependencies`, target file to current
 * file); the two maps always describe the same multigraph.
 */
module LinkResolution {
  import opened Optional

  /** A base URI; only the library's resolution function looks inside it. */
  datatype Uri = Uri(text: string)

  /** Where a link leads: client-side navigation to a note's slug, or a literal URL. */
  datatype Destination = Router(slug: string) | RawLink(link: string)

  /**
   * The process-wide slug index: file name to slug, and the conversion from a
   * slug back to its file name (`String.toFileName`), whose rules are not part
   * of this model.
   */
  datatype SlugIndex = SlugIndex(fileNameToSlug: map<string, string>, toFileName: string -> string)

  /** A dependency map: a file name to the ordered, possibly repeating, file names it is linked with. */
  type Adjacency = map<string, seq<string>>

  /** The list stored under `key`, or the empty list that `getOrPut` would create for it. */
  function Edges(m: Adjacency, key: string): seq<string>
  {
    if key in m then m[key] else []
  }

  /** `m.getOrPut(key) { mutableListOf() }.add(value)`: one list grows by one element at its end. */
  function Appended(m: Adjacency, key: string, value: string): (r: Adjacency)
    ensures r.Keys == m.Keys + {key}
    ensures Edges(r, key) == Edges(m, key) + [value]
    ensures forall k :: k != key ==> Edges(r, k) == Edges(m, k)
  {
    m[key := Edges(m, key) + [value]]
  }

  /**
   * The forward and reverse maps describe the same edges: for every pair of
   * files (a, b), b occurs in forward[a] exactly as often as a occurs in reverse[b].
   */
  ghost predicate Mirrored(forward: Adjacency, reverse: Adjacency)
  {
    forall a, b :: multiset(Edges(forward, a))[b] == multiset(Edges(reverse, b))[a]
  }

  lemma EmptyMirrored()
    ensures Mirrored(map[], map[])
  {
  }

  /** Recording one edge in both directions keeps the two maps mirrored. */
  lemma RecordEdgeKeepsMirrored(forward: Adjacency, reverse: Adjacency, from: string, to: string)
    requires Mirrored(forward, reverse)
    ensures Mirrored(Appended(forward, from, to), Appended(reverse, to, from))
  {
  }

  /** In mirrored maps an edge a -> b is listed forward exactly when b <- a is listed in reverse. */
  lemma MirroredEdge(forward: Adjacency, reverse: Adjacency, a: string, b: string)
    requires Mirrored(forward, reverse)
    ensures b in Edges(forward, a) <==> a in Edges(reverse, b)
  {
  }

  /** Appends are not deduplicated: recording the same edge twice lists it twice, and no other entry changes. */
  lemma AppendedTwice(m: Adjacency, key: string, value: string)
    ensures Edges(Appended(Appended(m, key, value), key, value), key) == Edges(m, key) + [value, value]
    ensures forall k :: k != key ==> Edges(Appended(Appended(m, key, value), key, value), k) == Edges(m, k)
  {
  }

  /** The two process-wide dependency maps, updated in place as links are resolved. */
  class DependencyGraph {
    var dependingLinks: Adjacency
    var linkDependencies: Adjacency

    ghost predicate Valid()
      reads this
    {
      Mirrored(dependingLinks, linkDependencies)
    }

    constructor ()
      ensures Valid()
      ensures dependingLinks == map[] && linkDependencies == map[]
    {
      dependingLinks, linkDependencies := map[], map[];
      new;
      EmptyMirrored();
    }
  }

  /**
   * A link processor for one markdown file. `resolveToStringSafe` is the
   * markdown library's reference resolution against a base URI, which may fail;
   * `destinationFilter` is what this processor's `getRenderInfo` does to a
   * destination on top of the underlying one (the identity unless it was
   * wrapped by `MakeXssSafe`).
   */
  class LinkElementProcessor {
    const baseURI: Option<Uri>
    const fileName: string
    const resolveAnchors: bool
    const slugs: SlugIndex
    const resolveToStringSafe: (Uri, string) -> Option<string>
    const destinationFilter: string -> string
    const graph: DependencyGraph

    constructor (baseURI: Option<Uri>, fileName: string, resolveAnchors: bool, slugs: SlugIndex,
                 resolveToStringSafe: (Uri, string) -> Option<string>, destinationFilter: string -> string,
                 graph: DependencyGraph)
      ensures this.baseURI == baseURI && this.fileName == fileName && this.resolveAnchors == resolveAnchors
      ensures this.slugs == slugs && this.resolveToStringSafe == resolveToStringSafe
      ensures this.destinationFilter == destinationFilter && this.graph == graph
    {
      this.baseURI := baseURI;
      this.fileName := fileName;
      this.resolveAnchors := resolveAnchors;
      this.slugs := slugs;
      this.resolveToStringSafe := resolveToStringSafe;
      this.destinationFilter := destinationFilter;
      this.graph := graph;
    }

    /** The destination is an anchor that is passed through untouched: `!resolveAnchors && destination.startsWith('#')`. */
    predicate IsKeptAnchor(destination: string)
      ensures IsKeptAnchor(destination) <==> !resolveAnchors && destination != [] && destination[0] == '#'
      ensures resolveAnchors ==> !IsKeptAnchor(destination)
      ensures destination == [] ==> !IsKeptAnchor(destination)
    {
      !resolveAnchors && |destination| > 0 && destination[0] == '#'
    }

    /** `baseURI?.resolveToStringSafe(destination) ?: destination` */
    function ResolveAgainstBase(destination: string): (r: string)
      ensures baseURI.None? ==> r == destination
      ensures baseURI.Some? && resolveToStringSafe(baseURI.value, destination).None? ==> r == destination
      ensures baseURI.Some? && resolveToStringSafe(baseURI.value, destination).Some? ==>
                r == resolveToStringSafe(baseURI.value, destination).value
    {
      match baseURI
      case None => destination
      case Some(base) => resolveToStringSafe(base, destination).GetOr(destination)
    }

    /** The destination `resolveUrl` returns. */
    function ResolvedDestination(destination: string): (d: Destination)
      ensures d.Router? <==> !IsKeptAnchor(destination) && destination in slugs.fileNameToSlug
      ensures d.Router? ==> d.slug == slugs.fileNameToSlug[destination]
      ensures IsKeptAnchor(destination) ==> d == RawLink(destination)
      ensures d.RawLink? && baseURI.None? ==> d.link == destination
      ensures !IsKeptAnchor(destination) && destination !in slugs.fileNameToSlug ==>
                d == RawLink(ResolveAgainstBase(destination))
    {
      if IsKeptAnchor(destination) then RawLink(destination)
      else if destination in slugs.fileNameToSlug then Router(slugs.fileNameToSlug[destination])
      else RawLink(ResolveAgainstBase(destination))
    }

    /**
     * `resolveUrl`: classify the destination and, on a note hit, record the
     * edge fileName -> target file forward and target file <- fileName in reverse.
     * Nothing else changes, and on the other paths nothing changes at all.
     */
    method ResolveUrl(destination: string) returns (d: Destination)
      requires graph.Valid()
      modifies graph
      ensures graph.Valid()
      ensures d == ResolvedDestination(destination)
      ensures d.Router? ==>
                graph.dependingLinks == Appended(old(graph.dependingLinks), fileName, slugs.toFileName(d.slug)) &&
                graph.linkDependencies == Appended(old(graph.linkDependencies), slugs.toFileName(d.slug), fileName)
      ensures d.RawLink? ==> unchanged(graph)
    {
      if IsKeptAnchor(destination) {
        return RawLink(destination);
      }
      if destination in slugs.fileNameToSlug {
        var slug := slugs.fileNameToSlug[destination];
        var targetFile := slugs.toFileName(slug);
        RecordEdgeKeepsMirrored(graph.dependingLinks, graph.linkDependencies, fileName, targetFile);
        graph.dependingLinks := Appended(graph.dependingLinks, fileName, targetFile);
        graph.linkDependencies := Appended(graph.linkDependencies, targetFile, fileName);
        return Router(slug);
      }
      match baseURI {
        case None =>
          d := RawLink(destination);
        case Some(base) =>
          match resolveToStringSafe(base, destination) {
            case Some(resolved) => d := RawLink(resolved);
            case None => d := RawLink(destination);
          }
      }
    }

    /** `makeAbsoluteUrl`: the anchor check and the base-URI fallback, without the slug lookup. */
    function MakeAbsoluteUrl(destination: string): (r: string)
      ensures IsKeptAnchor(destination) ==> r == destination
      ensures baseURI.None? ==> r == destination
      ensures !IsKeptAnchor(destination) ==> r == ResolveAgainstBase(destination)
      ensures !IsKeptAnchor(destination) && destination !in slugs.fileNameToSlug ==>
                ResolvedDestination(destination) == RawLink(r)
    {
      if IsKeptAnchor(destination) then destination else ResolveAgainstBase(destination)
    }

    /**
     * On the anchor path and on a lookup miss, `makeAbsoluteUrl` gives exactly
     * the string of the `RawLink` that `resolveUrl` returns; on a note hit it
     * gives the destination resolved against the base, ignoring the slug index.
     */
    lemma MakeAbsoluteUrlAgrees(destination: string)
      ensures ResolvedDestination(destination).RawLink? ==>
                ResolvedDestination(destination) == RawLink(MakeAbsoluteUrl(destination))
      ensures ResolvedDestination(destination).Router? ==>
                MakeAbsoluteUrl(destination) == ResolveAgainstBase(destination)
    {
    }

    /** The destination a rendered link starts from: the underlying one, passed through this processor's filter. */
    function RenderedDestination(destination: string): string
    {
      destinationFilter(destination)
    }

    /**
     * `makeXssSafe(useSafeLinks)`: with `useSafeLinks` false it is this same
     * processor; otherwise a new processor with the same settings and graph
     * whose destinations additionally pass through the library's sanitizer.
     */
    method MakeXssSafe(useSafeLinks: bool, makeXssSafeDestination: string -> string) returns (p: LinkElementProcessor)
      ensures !useSafeLinks ==> p == this
      ensures useSafeLinks ==> fresh(p)
      ensures p.baseURI == baseURI && p.fileName == fileName && p.resolveAnchors == resolveAnchors
      ensures p.slugs == slugs && p.resolveToStringSafe == resolveToStringSafe && p.graph == graph
      ensures useSafeLinks ==> forall s :: p.RenderedDestination(s) == makeXssSafeDestination(RenderedDestination(s))
    {
      if !useSafeLinks {
        return this;
      }
      var inner := destinationFilter;
      p := new LinkElementProcessor(baseURI, fileName, resolveAnchors, slugs, resolveToStringSafe,
                                    s => makeXssSafeDestination(inner(s)), graph);
    }
  }

  /**
   * Resolving the same note link twice records the edge twice in each map,
   * and every other entry of both maps keeps its old list.
   */
  method ResolveTwice(p: LinkElementProcessor, destination: string) returns (d1: Destination, d2: Destination)
    requires p.graph.Valid()
    requires !p.IsKeptAnchor(destination) && destination in p.slugs.fileNameToSlug
    modifies p.graph
    ensures p.graph.Valid()
    ensures d1 == d2 == Router(p.slugs.fileNameToSlug[destination])
    ensures var target := p.slugs.toFileName(p.slugs.fileNameToSlug[destination]);
            Edges(p.graph.dependingLinks, p.fileName) == Edges(old(p.graph.dependingLinks), p.fileName) + [target, target] &&
            Edges(p.graph.linkDependencies, target) == Edges(old(p.graph.linkDependencies), target) + [p.fileName, p.fileName] &&
            (forall k :: k != p.fileName ==> Edges(p.graph.dependingLinks, k) == Edges(old(p.graph.dependingLinks), k)) &&
            (forall k :: k != target ==> Edges(p.graph.linkDependencies, k) == Edges(old(p.graph.linkDependencies), k))
  {
    d1 := p.ResolveUrl(destination);
    d2 := p.ResolveUrl(destination);
    var target := p.slugs.toFileName(p.slugs.fileNameToSlug[destination]);
    AppendedTwice(old(p.graph.dependingLinks), p.fileName, target);
    AppendedTwice(old(p.graph.linkDependencies), target, p.fileName);
  }
}
