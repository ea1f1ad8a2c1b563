# Link resolution and note tree of a markdown notes site

This project models, in Dafny, the two pieces of logic of a personal
markdown-notes site that go beyond rendering glue:

- **Link resolution** (`LinkElementProcessor`, Kotlin). A markdown link
  destination is an anchor (`#…`, kept as it is unless the processor resolves
  anchors), a note known to the slug index (the link becomes client-side
  navigation to the note's slug), or anything else (resolved against an
  optional base URI, or kept verbatim). A note hit records the link in two
  process-wide dependency maps: `dependingLinks` (current file to target file)
  and `linkDependencies` (target file to current file). Module
  `LinkResolution`: the maps are the fields of class `DependencyGraph`, whose
  invariant says the two maps list the same edges with the same
  multiplicities; `LinkElementProcessor` is a class whose `ResolveUrl` method
  updates that graph in place.
- **Note tree** (`src/lib/markdown.ts`). `convertObject` mirrors a directory
  listing into display nodes `{name, children, id, routePath}`; the route of an
  entry is `"/note/" + slug` for the first slug whose normalised file name
  equals the entry's normalised name, provided the name has a `.` in it.
  `flat` lists the nodes it is given together with all their descendants in
  pre-order; `getFlattenArray` applies it to a root's children, so the root
  itself is left out.
  Module `MarkdownTree`: recursive specification functions on tree datatypes,
  and methods with loops (`ConvertObject`, `Flat`) proved equal to them.

Library and sibling-module calls are parameters, never guessed: the base-URI
resolution of the markdown library (`resolveToStringSafe`, a partial function),
its link sanitizer (`makeXssSafeDestination`), `toFileName`, and, for the tree,
`getAllSlugs`, `toFilePath`, `Transformer.parseFileNameFromPath` and
`Transformer.normalizeFileName` (fields of `SlugSource`).

`convertObject`'s slug search falls back to `""`, so a first matching slug that
is itself `""` gives no route, the same as no match at all (`RoutePathRule`).
`Router` holds a closure that only calls the navigator with the slug
(LinkElementProcessor.kt:55-57), so the model's `Router` holds just the slug.

## Model

| member | source | states |
|---|---|---|
| `LinkResolution.Appended` | kotlin/src/main/kotlin/markdown/processor/element/LinkElementProcessor.kt:52-53 | `getOrPut(key) { mutableListOf() }.add(value)`: the key set gains `key`, the list under `key` (empty if absent) gains `value` at its end, every other list is unchanged |
| `LinkResolution.RecordEdgeKeepsMirrored` | kotlin/src/main/kotlin/markdown/processor/element/LinkElementProcessor.kt:51-53 | appending `to` under `from` forward and `from` under `to` in reverse keeps, for all files a and b, count of b in forward[a] equal to count of a in reverse[b] |
| `LinkResolution.MirroredEdge` | kotlin/src/main/kotlin/markdown/processor/element/LinkElementProcessor.kt:52-53 | in mirrored maps, b is listed under a forward exactly when a is listed under b in reverse |
| `LinkResolution.AppendedTwice` | kotlin/src/main/kotlin/markdown/processor/element/LinkElementProcessor.kt:52-53 | appends are not deduplicated: the same append twice adds the value twice, and no other entry changes |
| `LinkResolution.DependencyGraph.constructor` | kotlin/src/main/kotlin/markdown/processor/element/LinkElementProcessor.kt:6-8 | the two imported dependency maps, started empty (the model's choice of initial state), satisfy the mirror invariant |
| `LinkResolution.LinkElementProcessor.IsKeptAnchor` | kotlin/src/main/kotlin/markdown/processor/element/LinkElementProcessor.kt:45 | a destination is passed through as an anchor exactly when `resolveAnchors` is false and it starts with `#`; with `resolveAnchors` true, or for the empty destination, it never is |
| `LinkResolution.LinkElementProcessor.constructor` | kotlin/src/main/kotlin/markdown/processor/element/LinkElementProcessor.kt:30-34 | a processor keeps its base URI, file name and `resolveAnchors` flag, all passed explicitly |
| `LinkResolution.LinkElementProcessor.ResolveAgainstBase` | kotlin/src/main/kotlin/markdown/processor/element/LinkElementProcessor.kt:60-62 | without a base URI, or when resolution fails, the destination verbatim; otherwise the resolved string |
| `LinkResolution.LinkElementProcessor.ResolvedDestination` | kotlin/src/main/kotlin/markdown/processor/element/LinkElementProcessor.kt:44-63 | the result is a `Router` exactly when the destination is not a kept anchor and is a key of the slug index, and then carries the mapped slug; a kept anchor (`!resolveAnchors` and leading `#`) is returned raw; on a lookup miss the result is `RawLink` of the base-URI resolution, the destination verbatim when there is no base URI or resolution fails |
| `LinkResolution.LinkElementProcessor.ResolveUrl` | kotlin/src/main/kotlin/markdown/processor/element/LinkElementProcessor.kt:44-63 | returns `ResolvedDestination`; on a note hit `dependingLinks[fileName]` gains `toFileName(slug)` and `linkDependencies[toFileName(slug)]` gains `fileName`, at the end, nothing else changes; on every other path the graph is unchanged; the mirror invariant is kept |
| `LinkResolution.ResolveTwice` | kotlin/src/main/kotlin/markdown/processor/element/LinkElementProcessor.kt:44-63 | resolving the same note link twice gives the same `Router` twice and lists the edge twice in each map; every other entry keeps its list |
| `LinkResolution.LinkElementProcessor.MakeAbsoluteUrl` | kotlin/src/main/kotlin/markdown/processor/element/LinkElementProcessor.kt:65-70 | a kept anchor is returned as it is; anything else is resolved against the base URI without consulting the slug index (verbatim without a base URI); off the note-hit path it is the string of the `RawLink` that `resolveUrl` returns |
| `LinkResolution.LinkElementProcessor.MakeAbsoluteUrlAgrees` | kotlin/src/main/kotlin/markdown/processor/element/LinkElementProcessor.kt:60-70 | whenever `resolveUrl` gives a raw link, `makeAbsoluteUrl` gives that link's string; on a note hit it ignores the slug index and resolves against the base |
| `LinkResolution.LinkElementProcessor.MakeXssSafe` | kotlin/src/main/kotlin/markdown/processor/element/LinkElementProcessor.kt:104-117 | with `useSafeLinks` false the result is the processor itself; otherwise a fresh processor with the same settings and graph whose destinations additionally pass through the sanitizer |
| `MarkdownTree.Split` | src/lib/markdown.ts:24 | `split` gives one piece more than there are separators, and no piece contains the separator |
| `MarkdownTree.SplitJoin` | src/lib/markdown.ts:24 | joining the pieces of `split` with the separator gives the string back |
| `MarkdownTree.HasExtension` | src/lib/markdown.ts:24-25 | `name.split(".").length > 1` exactly when the name contains a `.` |
| `MarkdownTree.MatchesName` | src/lib/markdown.ts:17-21 | the `find` callback: a slug matches when the normalised file name parsed from its path equals the normalised object name, a path with no file name comparing as `""` |
| `MarkdownTree.FindSlug` | src/lib/markdown.ts:17-22 | `find`: none exactly when no slug matches the normalised name; otherwise the slug at the first matching index |
| `MarkdownTree.RoutePathRule` | src/lib/markdown.ts:16-25 | no route for a name without `.`; no route when no slug matches; otherwise `"/note/" + s` for the first matching slug s, or no route when s is `""` |
| `MarkdownTree.ConvertAllAt` | src/lib/markdown.ts:33-37 | the converted children correspond one-to-one and in order to the entries: child i is entry i converted |
| `MarkdownTree.ConvertAllAppend` | src/lib/markdown.ts:34-37 | converting one more child pushes exactly its node at the end of the list |
| `MarkdownTree.ConvertObject` | src/lib/markdown.ts:12-42 | builds exactly the node of the recursive definition `Convert`: name and id from the entry, the route of `RoutePath`, and the converted children (a file, or a directory with no children, gets an empty child list) |
| `MarkdownTree.ConvertEach` | src/lib/markdown.ts:33-37 | the loop that converts each child and pushes it yields the converted list `ConvertAll` of the directory's children |
| `MarkdownTree.ConvertKeepsShape` | src/lib/markdown.ts:26-41 | the converted tree has the same names, nested the same way, children in the same order, as the listing |
| `MarkdownTree.ConvertNames` | src/lib/markdown.ts:26-31 | a node's `name` and `id` both equal the entry's name, and it has as many children as the entry |
| `MarkdownTree.ConvertSize` | src/lib/markdown.ts:12-42 | conversion keeps the node count |
| `MarkdownTree.PreOrderLength` | src/lib/markdown.ts:44-53 | the pre-order listing of a tree has one element per node |
| `MarkdownTree.FlattenAppend` | src/lib/markdown.ts:46-51 | siblings keep their order: the listing of two runs of siblings is the two listings concatenated |
| `MarkdownTree.PreOrderPosition` | src/lib/markdown.ts:44-53 | the i-th sibling sits right after all earlier siblings' subtrees and is immediately followed by the listing of its descendants |
| `MarkdownTree.Flat` | src/lib/markdown.ts:44-53 | the loop that pushes each node and concatenates its children's listing yields the pre-order listing `Flatten` |
| `MarkdownTree.GetFlattenArray` | src/lib/markdown.ts:55-57 | the tree's pre-order listing without the root; its length is the node count minus one |
| `MarkdownTree.FlattenExample` | src/lib/markdown.ts:44-57 | a root over A and B, with C below B, lists as A, B, C |

## Left out

- Rendering: `processNode`, `renderLink`, `getRenderInfo` (abstract in the source), `fallBackProvider` and `labelProvider` emit React elements and are not modelled; the model keeps only the destination a processor would render from (`RenderedDestination`).
- Reference resolution against a base URI (section 5.2 of RFC 3986, done by the markdown library's `resolveToStringSafe`) is an uninterpreted partial function.
- The markdown library's `makeXssSafeDestination` sanitizer is an uninterpreted function; only the `useSafeLinks = false` short-circuit and the composition of the wrapper are stated.
- `toFileName`, `fileNameToSlug`, `getAllSlugs`, `toFilePath` and the `Transformer` functions come from files that are not part of this model; they are inputs. `getAllSlugs()` is taken to return the same list on every call.
- The Kotlin `CharSequence` destination is a `string`; `Router`'s navigation closure is reduced to the slug it passes on.
- `flat`'s `Array.isArray(a.children)` test is always true for the nodes `convertObject` builds, whose `children` is always an array, so the model has no case for a missing child list there.
- `LinkResolution.DependencyGraph.constructor`: the initial contents of the dependency maps are not in the source (the maps are imported from a file that is not part of this model); the model starts them empty.
- The default arguments `resolveAnchors: Boolean = false` and `useSafeLinks: Boolean = true` are not modelled: the processor's constructor and `MakeXssSafe` take both flags explicitly.
- The page shell (`src/pages/_document.tsx`) and the `TagConsumer` interface have no logic to model.
- The dependency maps are single-threaded state; concurrent appends are not modelled.
