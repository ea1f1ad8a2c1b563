/**
 * The note tree of the site's navigation (src/lib/markdown.ts): a directory
 * listing mirrored into display nodes, each with an optional route to the note
 * it shows, and the pre-order listing of those nodes below a root.
 */
module MarkdownTree {
  import opened Optional

  /**
   * An entry of the directory listing. A file carries no child list; a
   * directory carries one, possibly empty.
   */
  datatype DirectoryTree =
    | File(name: string)
    | Directory(name: string, children: seq<DirectoryTree>)

  /** A display node: `{ name, children, id, routePath }`. */
  datatype MdObject = MdObject(name: string, children: seq<MdObject>, id: string, routePath: Option<string>)

  /**
   * The slug module and the file-name transformer, which are not part of this
   * model: the list of all slugs, a slug's file path, the file name parsed
   * from a path (possibly absent), and the normalisation of a file name.
   */
  datatype SlugSource = SlugSource(
    allSlugs: seq<string>,
    toFilePath: string -> string,
    parseFileNameFromPath: string -> Option<string>,
    normalizeFileName: string -> string)

  /** The fixed prefix of a note's route. */
  const NotePrefix: string := "/note/"

  // ---------------------------------------------------------------------------
  // String.prototype.split with a one-character separator

  /** The pieces of `s` between occurrences of `sep`; `""` gives `[""]`. */
  function Split(s: string, sep: char): (r: seq<string>)
    ensures |r| == multiset(s)[sep] + 1
    ensures forall i :: 0 <= i < |r| ==> sep !in r[i]
  {
    if s == [] then [""]
    else
      var rest := Split(s[1..], sep);
      assert s == [s[0]] + s[1..];
      if s[0] == sep then [""] + rest
      else [[s[0]] + rest[0]] + rest[1..]
  }

  /** Pieces glued back together with the separator between them. */
  function Join(pieces: seq<string>, sep: char): string
    requires |pieces| > 0
  {
    if |pieces| == 1 then pieces[0] else pieces[0] + [sep] + Join(pieces[1..], sep)
  }

  /** Prepending an empty piece puts a separator in front of the joined string. */
  lemma JoinEmptyHead(pieces: seq<string>, sep: char)
    requires |pieces| > 0
    ensures Join([""] + pieces, sep) == [sep] + Join(pieces, sep)
  {
    assert ([""] + pieces)[1..] == pieces;
  }

  /** Prepending a character to the first piece prepends it to the joined string. */
  lemma JoinConsHead(c: char, pieces: seq<string>, sep: char)
    requires |pieces| > 0
    ensures Join([[c] + pieces[0]] + pieces[1..], sep) == [c] + Join(pieces, sep)
  {
    var longer := [[c] + pieces[0]] + pieces[1..];
    assert longer[0] == [c] + pieces[0] && longer[1..] == pieces[1..];
  }

  /** Splitting loses nothing: joining the pieces with the separator gives the string back. */
  lemma {:induction false} SplitJoin(s: string, sep: char)
    ensures Join(Split(s, sep), sep) == s
  {
    if s != [] {
      var rest := Split(s[1..], sep);
      SplitJoin(s[1..], sep);
      if s[0] == sep {
        JoinEmptyHead(rest, sep);
      } else {
        JoinConsHead(s[0], rest, sep);
      }
      assert s == [s[0]] + s[1..];
    }
  }

  /** `name.split(".").length > 1` holds exactly when the name contains a dot. */
  lemma HasExtension(name: string)
    ensures |Split(name, '.')| > 1 <==> '.' in name
  {
  }

  // ---------------------------------------------------------------------------
  // The route of a node

  /** The slug's file name, normalised, equals the normalised object name (a missing file name counts as `""`). */
  predicate MatchesName(src: SlugSource, slug: string, objectName: string)
    ensures src.parseFileNameFromPath(src.toFilePath(slug)).None? ==>
              (MatchesName(src, slug, objectName) <==> src.normalizeFileName("") == src.normalizeFileName(objectName))
    ensures src.parseFileNameFromPath(src.toFilePath(slug)).Some? ==>
              (MatchesName(src, slug, objectName) <==>
                 src.normalizeFileName(src.parseFileNameFromPath(src.toFilePath(slug)).value) == src.normalizeFileName(objectName))
  {
    src.normalizeFileName(src.parseFileNameFromPath(src.toFilePath(slug)).GetOr(""))
      == src.normalizeFileName(objectName)
  }

  /** `slugs.find(...)`: the first slug whose file name matches, if any. */
  function FindSlug(src: SlugSource, slugs: seq<string>, objectName: string): (r: Option<string>)
    ensures r.None? <==> forall i :: 0 <= i < |slugs| ==> !MatchesName(src, slugs[i], objectName)
    ensures r.Some? ==> exists i :: 0 <= i < |slugs| && slugs[i] == r.value && MatchesName(src, slugs[i], objectName) &&
                          forall j :: 0 <= j < i ==> !MatchesName(src, slugs[j], objectName)
  {
    if slugs == [] then None
    else if MatchesName(src, slugs[0], objectName) then Some(slugs[0])
    else
      var r := FindSlug(src, slugs[1..], objectName);
      assert forall i :: 1 <= i < |slugs| ==> slugs[i] == slugs[1..][i - 1];
      r
  }

  /** The route path `convertObject` attaches to an entry named `objectName`. */
  function RoutePath(src: SlugSource, objectName: string): Option<string>
  {
    var routerPath := FindSlug(src, src.allSlugs, objectName).GetOr("");
    if |Split(objectName, '.')| > 1 && routerPath != "" then Some(NotePrefix + routerPath) else None
  }

  /**
   * The route decision: a name without a dot has no route; a name no slug
   * matches has no route; otherwise the route is the prefix followed by the
   * FIRST matching slug in list order, unless that slug is `""`, which the
   * source also uses as its "not found" value and so yields no route.
   */
  lemma RoutePathRule(src: SlugSource, objectName: string)
    ensures '.' !in objectName ==> RoutePath(src, objectName) == None
    ensures (forall i :: 0 <= i < |src.allSlugs| ==> !MatchesName(src, src.allSlugs[i], objectName)) ==>
              RoutePath(src, objectName) == None
    ensures forall i :: 0 <= i < |src.allSlugs| && MatchesName(src, src.allSlugs[i], objectName) &&
                        (forall j :: 0 <= j < i ==> !MatchesName(src, src.allSlugs[j], objectName)) ==>
              RoutePath(src, objectName) ==
                if '.' in objectName && src.allSlugs[i] != "" then Some(NotePrefix + src.allSlugs[i]) else None
  {
  }

  // ---------------------------------------------------------------------------
  // Tree conversion

  /** The child list of an entry, empty for a file. */
  function Entries(t: DirectoryTree): seq<DirectoryTree>
  {
    match t
    case File(_) => []
    case Directory(_, children) => children
  }

  /** The node `convertObject` builds for an entry. */
  function Convert(src: SlugSource, t: DirectoryTree): MdObject
  {
    var children := match t
      case File(_) => []
      case Directory(_, entries) => ConvertAll(src, entries);
    MdObject(t.name, children, t.name, RoutePath(src, t.name))
  }

  /** Each entry of a list converted, in order. */
  function ConvertAll(src: SlugSource, entries: seq<DirectoryTree>): (r: seq<MdObject>)
    ensures |r| == |entries|
  {
    if entries == [] then [] else [Convert(src, entries[0])] + ConvertAll(src, entries[1..])
  }

  /** The converted children correspond one-to-one and in order to the entries. */
  lemma {:induction false} ConvertAllAt(src: SlugSource, entries: seq<DirectoryTree>, i: nat)
    requires i < |entries|
    ensures ConvertAll(src, entries)[i] == Convert(src, entries[i])
  {
    if i > 0 {
      ConvertAllAt(src, entries[1..], i - 1);
    }
  }

  /** Converting one more entry appends its node to the converted list. */
  lemma {:induction false} ConvertAllAppend(src: SlugSource, entries: seq<DirectoryTree>, last: DirectoryTree)
    ensures ConvertAll(src, entries + [last]) == ConvertAll(src, entries) + [Convert(src, last)]
  {
    if entries == [] {
      assert entries + [last] == [last];
    } else {
      assert (entries + [last])[0] == entries[0] && (entries + [last])[1..] == entries[1..] + [last];
      ConvertAllAppend(src, entries[1..], last);
    }
  }

  /** `convertObject`: builds the node of an entry; a directory's children are converted one by one. */
  method ConvertObject(src: SlugSource, thisObject: DirectoryTree) returns (o: MdObject)
    ensures o == Convert(src, thisObject)
    decreases thisObject, 1
  {
    var children: seq<MdObject> := [];
    var objectName := thisObject.name;
    var routerPath := FindSlug(src, src.allSlugs, objectName).GetOr("");
    var nameAndExtension := Split(objectName, '.');
    var routePath := if |nameAndExtension| > 1 && routerPath != "" then Some(NotePrefix + routerPath) else None;
    assert routePath == RoutePath(src, objectName);
    if thisObject.Directory? && |thisObject.children| > 0 {
      children := ConvertEach(src, thisObject, thisObject.children);
    }
    o := MdObject(objectName, children, objectName, routePath);
  }

  /** The `forEach` of `convertObject`: convert each child of a directory and push it. */
  method ConvertEach(src: SlugSource, ghost parent: DirectoryTree, kids: seq<DirectoryTree>) returns (children: seq<MdObject>)
    requires parent.Directory? && parent.children == kids
    ensures children == ConvertAll(src, kids)
    decreases parent, 0
  {
    children := [];
    var i := 0;
    while i < |kids|
      invariant 0 <= i <= |kids|
      invariant children == ConvertAll(src, kids[..i])
    {
      assert kids[i] in parent.children;
      var newChild := ConvertObject(src, kids[i]);
      assert kids[..i + 1] == kids[..i] + [kids[i]];
      ConvertAllAppend(src, kids[..i], kids[i]);
      children := children + [newChild];
      i := i + 1;
    }
    assert kids[..i] == kids;
  }

  /** The names and nesting of a directory listing, without anything else. */
  datatype Shape = Shape(name: string, children: seq<Shape>)

  function DirShape(t: DirectoryTree): Shape
  {
    match t
    case File(name) => Shape(name, [])
    case Directory(name, entries) => Shape(name, DirShapes(entries))
  }

  function DirShapes(entries: seq<DirectoryTree>): seq<Shape>
  {
    if entries == [] then [] else [DirShape(entries[0])] + DirShapes(entries[1..])
  }

  function MdShape(o: MdObject): Shape
  {
    Shape(o.name, MdShapes(o.children))
  }

  function MdShapes(nodes: seq<MdObject>): seq<Shape>
  {
    if nodes == [] then [] else [MdShape(nodes[0])] + MdShapes(nodes[1..])
  }

  /**
   * Conversion mirrors the tree: the same names, the same children in the same
   * order, nested the same way; a file becomes a node with no children.
   */
  lemma {:induction false} ConvertKeepsShape(src: SlugSource, t: DirectoryTree)
    ensures MdShape(Convert(src, t)) == DirShape(t)
    decreases t
  {
    if t.Directory? {
      ConvertAllKeepsShape(src, t.children);
    }
  }

  lemma {:induction false} ConvertAllKeepsShape(src: SlugSource, entries: seq<DirectoryTree>)
    ensures MdShapes(ConvertAll(src, entries)) == DirShapes(entries)
    decreases entries
  {
    if entries != [] {
      ConvertKeepsShape(src, entries[0]);
      ConvertAllKeepsShape(src, entries[1..]);
    }
  }

  /** Every node `convertObject` builds carries the entry's name as both its name and its id. */
  lemma ConvertNames(src: SlugSource, t: DirectoryTree)
    ensures Convert(src, t).name == t.name && Convert(src, t).id == t.name
    ensures |Convert(src, t).children| == |Entries(t)|
  {
  }

  // ---------------------------------------------------------------------------
  // Node counts and the pre-order listing

  function DirSize(t: DirectoryTree): nat
  {
    match t
    case File(_) => 1
    case Directory(_, entries) => 1 + DirSizes(entries)
  }

  function DirSizes(entries: seq<DirectoryTree>): nat
  {
    if entries == [] then 0 else DirSize(entries[0]) + DirSizes(entries[1..])
  }

  function Size(o: MdObject): nat
  {
    1 + Sizes(o.children)
  }

  function Sizes(nodes: seq<MdObject>): nat
  {
    if nodes == [] then 0 else Size(nodes[0]) + Sizes(nodes[1..])
  }

  /** A tree listed in pre-order: the node, then its children's subtrees in order. */
  function PreOrder(o: MdObject): seq<MdObject>
  {
    [o] + Flatten(o.children)
  }

  /** A forest listed in pre-order. */
  function Flatten(nodes: seq<MdObject>): seq<MdObject>
  {
    if nodes == [] then [] else PreOrder(nodes[0]) + Flatten(nodes[1..])
  }

  /** The listing of a tree holds every node once: its length is the node count. */
  lemma {:induction false} PreOrderLength(o: MdObject)
    ensures |PreOrder(o)| == Size(o)
  {
    FlattenLength(o.children);
  }

  lemma {:induction false} FlattenLength(nodes: seq<MdObject>)
    ensures |Flatten(nodes)| == Sizes(nodes)
  {
    if nodes != [] {
      PreOrderLength(nodes[0]);
      FlattenLength(nodes[1..]);
    }
  }

  /** Siblings keep their order: the listing of two consecutive runs of siblings is the two listings concatenated. */
  lemma {:induction false} FlattenAppend(a: seq<MdObject>, b: seq<MdObject>)
    ensures Flatten(a + b) == Flatten(a) + Flatten(b)
  {
    if a == [] {
      assert a + b == b;
    } else {
      assert (a + b)[0] == a[0] && (a + b)[1..] == a[1..] + b;
      FlattenAppend(a[1..], b);
    }
  }

  /**
   * Pre-order placement: in the listing of a forest, the i-th sibling sits at
   * the position after all earlier siblings' subtrees, and is followed at once
   * by the listing of its own descendants.
   */
  lemma PreOrderPosition(nodes: seq<MdObject>, i: nat)
    requires i < |nodes|
    ensures Sizes(nodes[..i]) + Size(nodes[i]) <= |Flatten(nodes)|
    ensures Flatten(nodes)[Sizes(nodes[..i])] == nodes[i]
    ensures Flatten(nodes)[Sizes(nodes[..i]) + 1 .. Sizes(nodes[..i]) + Size(nodes[i])] == Flatten(nodes[i].children)
  {
    var before, after := nodes[..i], nodes[i + 1..];
    assert nodes == before + [nodes[i]] + after;
    FlattenAppend(before + [nodes[i]], after);
    FlattenAppend(before, [nodes[i]]);
    assert Flatten([nodes[i]]) == PreOrder(nodes[i]);
    assert nodes[..i] == before;
    FlattenLength(before);
    PreOrderLength(nodes[i]);
  }

  /** `flat`: push each node, then concatenate the listing of its children. */
  method Flat(nodes: seq<MdObject>) returns (result: seq<MdObject>)
    ensures result == Flatten(nodes)
  {
    result := [];
    var i := 0;
    while i < |nodes|
      invariant 0 <= i <= |nodes|
      invariant result == Flatten(nodes[..i])
    {
      var a := nodes[i];
      result := result + [a];
      var sub := Flat(a.children);
      result := result + sub;
      assert nodes[..i + 1] == nodes[..i] + [a];
      FlattenAppend(nodes[..i], [a]);
      i := i + 1;
    }
    assert nodes[..i] == nodes;
  }

  /** `getFlattenArray`: the pre-order listing of a tree without its root. */
  method GetFlattenArray(thisObject: MdObject) returns (r: seq<MdObject>)
    ensures r == PreOrder(thisObject)[1..]
    ensures |r| == Size(thisObject) - 1
  {
    r := Flat(thisObject.children);
    PreOrderLength(thisObject);
  }

  /** Conversion keeps the node count. */
  lemma {:induction false} ConvertSize(src: SlugSource, t: DirectoryTree)
    ensures Size(Convert(src, t)) == DirSize(t)
    decreases t
  {
    if t.Directory? {
      ConvertAllSize(src, t.children);
    }
  }

  lemma {:induction false} ConvertAllSize(src: SlugSource, entries: seq<DirectoryTree>)
    ensures Sizes(ConvertAll(src, entries)) == DirSizes(entries)
    decreases entries
  {
    if entries != [] {
      ConvertSize(src, entries[0]);
      ConvertAllSize(src, entries[1..]);
    }
  }

  /** A root with children A and B, where B has the child C, lists as A, B, C. */
  lemma FlattenExample()
    ensures var c := MdObject("C", [], "C", None);
            var b := MdObject("B", [c], "B", None);
            var a := MdObject("A", [], "A", None);
            PreOrder(MdObject("root", [a, b], "root", None))[1..] == [a, b, c]
  {
    var c := MdObject("C", [], "C", None);
    var b := MdObject("B", [c], "B", None);
    var a := MdObject("A", [], "A", None);
    assert Flatten([]) == [];
    assert PreOrder(c) == [c];
    assert Flatten([c]) == [c];
    assert PreOrder(b) == [b, c];
    assert Flatten([b]) == [b, c];
    assert PreOrder(a) == [a];
    assert [a, b][1..] == [b];
    assert Flatten([a, b]) == [a, b, c];
  }
}
