/**
 * `CodeChartaJsonExport`: the parsed files are inserted, path segment by
 * path segment, into a tree rooted at a folder named `root`; the tree, the
 * attribute types taken from the first file and a fixed envelope make up
 * the exported value.
 *
 * The tree under construction is an object graph whose nodes are updated in
 * place. It is held as a list of nodes in which a node refers to its
 * children by position; `ToTree` reads the finished graph as the nested
 * value that is serialised.
 */
module CodeChartaExport {
  import opened Base
  import opened Text
  import Seqs

  datatype NodeType = File | Folder

  /** A node of the serialised tree. */
  datatype CodeMapNode = CodeMapNode(name: string, kind: NodeType, attributes: map<string, int>, children: seq<CodeMapNode>)

  datatype Edge = Edge(fromNodeName: string, toNodeName: string, attributes: map<string, int>)

  /** Every attribute type is `"absolute"` or `"relative"`. */
  datatype AttributeTypes = AttributeTypes(nodes: map<string, string>, edges: map<string, string>)

  datatype ExportCcFile = ExportCcFile(
    projectName: string, apiVersion: string, nodes: seq<CodeMapNode>, edges: seq<Edge>,
    attributeTypes: AttributeTypes)

  /** One input record: a path and its metrics. */
  datatype ParsedFile = ParsedFile(path: string, metrics: map<string, int>)

  // ------------------------------------------------------------ segments

  /** `parts.filter((part) => part.length > 0)`. */
  function NonEmpty(parts: seq<string>): (r: seq<string>)
    ensures forall i :: 0 <= i < |r| ==> r[i] != "" && r[i] in parts
  {
    if |parts| == 0 then []
    else (if parts[0] == "" then [] else [parts[0]]) + NonEmpty(parts[1..])
  }

  lemma {:induction false} NonEmptyConcat(a: seq<string>, b: seq<string>)
    ensures NonEmpty(a + b) == NonEmpty(a) + NonEmpty(b)
  {
    if |a| == 0 {
      assert a + b == b;
    } else {
      assert (a + b)[0] == a[0] && (a + b)[1..] == a[1..] + b;
      NonEmptyConcat(a[1..], b);
    }
  }

  /** The non-empty `/`-separated segments of a path. */
  function Segments(path: string): (parts: seq<string>)
    ensures forall i :: 0 <= i < |parts| ==> parts[i] != "" && '/' !in parts[i]
  {
    NonEmpty(Split(path, '/'))
  }

  /** A separator between two paths separates their segments. */
  lemma SegmentsConcat(a: string, b: string)
    ensures Segments(a + "/" + b) == Segments(a) + Segments(b)
  {
    assert a + "/" + b == a + ['/'] + b;
    SplitConcat(a, b, '/');
    NonEmptyConcat(Split(a, '/'), Split(b, '/'));
  }

  lemma SegmentsOfEmpty()
    ensures Segments("") == []
  {
  }

  /** A doubled separator adds nothing: `a//b` has the segments of `a/b`. */
  lemma DoubledSeparatorIgnored(a: string, b: string)
    ensures Segments(a + "//" + b) == Segments(a + "/" + b)
  {
    var c := "/" + b;
    assert a + "//" + b == a + "/" + c;
    SegmentsConcat(a, c);
    assert "" + "/" + b == c;
    SegmentsConcat("", b);
    SegmentsOfEmpty();
    assert Segments(c) == Segments(b);
    SegmentsConcat(a, b);
  }

  /** Leading and trailing separators add nothing: `/p/` has the segments of `p`. */
  lemma OuterSeparatorsIgnored(p: string)
    ensures Segments("/" + p + "/") == Segments(p)
  {
    assert "/" + p + "/" == "" + "/" + (p + "/" + "");
    SegmentsConcat("", p + "/" + "");
    SegmentsConcat(p, "");
    SegmentsOfEmpty();
    assert p + "/" + "" == p + "/";
    assert [] + Segments(p) + [] == Segments(p);
  }

  // --------------------------------------------------------- node graph

  /** A node of the graph under construction; its children are positions in the node list. */
  datatype Node = Node(name: string, kind: NodeType, attributes: map<string, int>, children: seq<nat>)

  /** Every child comes after its parent in the list. */
  predicate Linked(nodes: seq<Node>)
  {
    forall n, k :: 0 <= n < |nodes| && 0 <= k < |nodes[n].children| ==> n < nodes[n].children[k] < |nodes|
  }

  /** `children.find((child) => child.name === name)`: the first child with that name. */
  function ChildNamed(nodes: seq<Node>, ids: seq<nat>, name: string): (r: Option<nat>)
    requires forall k :: 0 <= k < |ids| ==> ids[k] < |nodes|
    ensures r.Some? ==> r.value in ids && r.value < |nodes| && nodes[r.value].name == name
    ensures r.None? <==> forall k :: 0 <= k < |ids| ==> nodes[ids[k]].name != name
  {
    if |ids| == 0 then None
    else if nodes[ids[0]].name == name then Some(ids[0])
    else ChildNamed(nodes, ids[1..], name)
  }

  /** The node reached from `n` by following children named by `path`, if any. */
  function FindFrom(nodes: seq<Node>, n: nat, path: seq<string>): (r: Option<nat>)
    requires Linked(nodes) && n < |nodes|
    ensures r.Some? ==> r.value < |nodes|
    decreases |path|
  {
    if |path| == 0 then Some(n)
    else
      match ChildNamed(nodes, nodes[n].children, path[0])
      case None => None
      case Some(c) => FindFrom(nodes, c, path[1..])
  }

  /** Following one more name is one more child lookup. */
  lemma {:induction false} FindFromAppend(nodes: seq<Node>, n: nat, path: seq<string>, x: string)
    requires Linked(nodes) && n < |nodes|
    ensures FindFrom(nodes, n, path + [x]) ==
      match FindFrom(nodes, n, path)
      case None => None
      case Some(m) => ChildNamed(nodes, nodes[m].children, x)
    decreases |path|
  {
    if |path| == 0 {
      assert path + [x] == [x];
      assert [x][1..] == [];
    } else {
      assert (path + [x])[0] == path[0] && (path + [x])[1..] == path[1..] + [x];
      match ChildNamed(nodes, nodes[n].children, path[0])
      case None =>
      case Some(c) => FindFromAppend(nodes, c, path[1..], x);
    }
  }

  /** Every prefix of a path that is found is found as well. */
  lemma {:induction false} FindFromPrefix(nodes: seq<Node>, n: nat, path: seq<string>, i: nat)
    requires Linked(nodes) && n < |nodes|
    requires FindFrom(nodes, n, path).Some? && i <= |path|
    ensures FindFrom(nodes, n, path[..i]).Some?
    decreases |path|
  {
    if i > 0 {
      var c := ChildNamed(nodes, nodes[n].children, path[0]).value;
      FindFromPrefix(nodes, c, path[1..], i - 1);
      assert path[..i][0] == path[0] && path[..i][1..] == path[1..][..i - 1];
    }
  }

  /** No two children of a node share a name. */
  predicate UniqueSiblings(nodes: seq<Node>)
    requires Linked(nodes)
  {
    forall n, i, j :: 0 <= n < |nodes| && 0 <= i < j < |nodes[n].children| ==>
      nodes[nodes[n].children[i]].name != nodes[nodes[n].children[j]].name
  }

  /** `currentNode.children.push(childNode)` for a new node with no attributes and no children. */
  function AddChild(nodes: seq<Node>, m: nat, x: string, kind: NodeType): (r: seq<Node>)
    requires m < |nodes|
    ensures |r| == |nodes| + 1
  {
    nodes[m := nodes[m].(children := nodes[m].children + [|nodes|])] + [Node(x, kind, map[], [])]
  }

  lemma AddChildLinked(nodes: seq<Node>, m: nat, x: string, kind: NodeType)
    requires Linked(nodes) && m < |nodes|
    ensures Linked(AddChild(nodes, m, x, kind))
  {
    var r := AddChild(nodes, m, x, kind);
    forall n, k | 0 <= n < |r| && 0 <= k < |r[n].children|
      ensures n < r[n].children[k] < |r|
    {
      if n != m && n < |nodes| {
        assert r[n] == nodes[n];
      } else if n == m && k < |nodes[m].children| {
        assert r[n].children[k] == nodes[m].children[k];
      }
    }
  }

  /** A first-match search over old nodes is unaffected by appending a node. */
  lemma {:induction false} ChildNamedAddChild(nodes: seq<Node>, m: nat, x: string, kind: NodeType, ids: seq<nat>, name: string)
    requires m < |nodes|
    requires forall k :: 0 <= k < |ids| ==> ids[k] < |nodes|
    ensures ChildNamed(AddChild(nodes, m, x, kind), ids, name) == ChildNamed(nodes, ids, name)
  {
    if |ids| > 0 {
      ChildNamedAddChild(nodes, m, x, kind, ids[1..], name);
    }
  }

  /** A first-match search over a list with one more element at the end. */
  lemma {:induction false} ChildNamedAppend(nodes: seq<Node>, ids: seq<nat>, y: nat, name: string)
    requires forall k :: 0 <= k < |ids| ==> ids[k] < |nodes|
    requires y < |nodes|
    ensures ChildNamed(nodes, ids + [y], name) ==
      if ChildNamed(nodes, ids, name).Some? then ChildNamed(nodes, ids, name)
      else if nodes[y].name == name then Some(y) else None
  {
    if |ids| == 0 {
      assert ids + [y] == [y];
      assert [y][1..] == [];
    } else {
      assert (ids + [y])[0] == ids[0] && (ids + [y])[1..] == ids[1..] + [y];
      ChildNamedAppend(nodes, ids[1..], y, name);
    }
  }

  /** Adding a node leaves every path that was found leading to the same node. */
  lemma {:induction false} FindFromAddChild(nodes: seq<Node>, m: nat, x: string, kind: NodeType, n: nat, path: seq<string>)
    requires Linked(nodes) && m < |nodes| && n < |nodes|
    requires FindFrom(nodes, n, path).Some?
    ensures Linked(AddChild(nodes, m, x, kind))
    ensures FindFrom(AddChild(nodes, m, x, kind), n, path) == FindFrom(nodes, n, path)
    decreases |path|
  {
    AddChildLinked(nodes, m, x, kind);
    var r := AddChild(nodes, m, x, kind);
    if |path| > 0 {
      if n == m {
        ChildNamedAppend(r, nodes[m].children, |nodes|, path[0]);
        assert r[n].children == nodes[m].children + [|nodes|];
      } else {
        assert r[n].children == nodes[n].children;
      }
      ChildNamedAddChild(nodes, m, x, kind, nodes[n].children, path[0]);
      var c := ChildNamed(nodes, nodes[n].children, path[0]).value;
      FindFromAddChild(nodes, m, x, kind, c, path[1..]);
    }
  }

  /** The node just added is found under its parent's path. */
  lemma FindAddedChild(nodes: seq<Node>, m: nat, x: string, kind: NodeType, path: seq<string>)
    requires Linked(nodes) && 0 < |nodes| && m < |nodes|
    requires FindFrom(nodes, 0, path) == Some(m)
    requires ChildNamed(nodes, nodes[m].children, x).None?
    ensures Linked(AddChild(nodes, m, x, kind))
    ensures FindFrom(AddChild(nodes, m, x, kind), 0, path + [x]) == Some(|nodes|)
  {
    var r := AddChild(nodes, m, x, kind);
    FindFromAddChild(nodes, m, x, kind, 0, path);
    FindFromAppend(r, 0, path, x);
    assert r[m].children == nodes[m].children + [|nodes|];
    ChildNamedAppend(r, nodes[m].children, |nodes|, x);
    ChildNamedAddChild(nodes, m, x, kind, nodes[m].children, x);
  }

  /** A child is added only under a name its parent does not have yet, so names stay unique. */
  lemma AddChildUnique(nodes: seq<Node>, m: nat, x: string, kind: NodeType)
    requires Linked(nodes) && m < |nodes| && UniqueSiblings(nodes)
    requires ChildNamed(nodes, nodes[m].children, x).None?
    ensures Linked(AddChild(nodes, m, x, kind))
    ensures UniqueSiblings(AddChild(nodes, m, x, kind))
  {
    AddChildLinked(nodes, m, x, kind);
    var r := AddChild(nodes, m, x, kind);
    forall n, i, j | 0 <= n < |r| && 0 <= i < j < |r[n].children|
      ensures r[r[n].children[i]].name != r[r[n].children[j]].name
    {
      if n == m {
        assert r[n].children == nodes[m].children + [|nodes|];
        if j == |nodes[m].children| {
          assert r[n].children[j] == |nodes|;
          assert r[r[n].children[i]].name == nodes[nodes[m].children[i]].name;
        } else {
          assert r[r[n].children[i]].name == nodes[nodes[m].children[i]].name;
          assert r[r[n].children[j]].name == nodes[nodes[m].children[j]].name;
        }
      } else if n < |nodes| {
        assert r[n].children == nodes[n].children;
        assert r[r[n].children[i]].name == nodes[nodes[n].children[i]].name;
        assert r[r[n].children[j]].name == nodes[nodes[n].children[j]].name;
      }
    }
  }

  /** Each child's path is its parent's path followed by its own name. */
  ghost predicate PathsLinked(nodes: seq<Node>, paths: seq<seq<string>>)
    requires Linked(nodes) && |paths| == |nodes|
  {
    forall n, k :: 0 <= n < |nodes| && 0 <= k < |nodes[n].children| ==>
      paths[nodes[n].children[k]] == paths[n] + [nodes[nodes[n].children[k]].name]
  }

  /** A path leads to at most one node: the node whose recorded path it is. */
  lemma {:induction false} FoundNodeHasThatPath(nodes: seq<Node>, paths: seq<seq<string>>, path: seq<string>)
    requires Linked(nodes) && |paths| == |nodes| && 0 < |nodes| && paths[0] == []
    requires PathsLinked(nodes, paths)
    requires FindFrom(nodes, 0, path).Some?
    ensures paths[FindFrom(nodes, 0, path).value] == path
    decreases |path|
  {
    if |path| > 0 {
      var front := path[..|path| - 1];
      var x := path[|path| - 1];
      assert path == front + [x];
      FindFromAppend(nodes, 0, front, x);
      FoundNodeHasThatPath(nodes, paths, front);
      var m := FindFrom(nodes, 0, front).value;
      var c := ChildNamed(nodes, nodes[m].children, x).value;
      var k :| 0 <= k < |nodes[m].children| && nodes[m].children[k] == c;
    }
  }

  predicate IsPrefix(a: seq<string>, b: seq<string>)
  {
    |a| <= |b| && b[..|a|] == a
  }

  // ------------------------------------------------------- serialised tree

  /** The nested value the node graph stands for, from node `n` down. */
  function ToTree(nodes: seq<Node>, n: nat): (t: CodeMapNode)
    requires Linked(nodes) && n < |nodes|
    ensures t.name == nodes[n].name && t.kind == nodes[n].kind && t.attributes == nodes[n].attributes
    ensures |t.children| == |nodes[n].children|
    ensures forall k :: 0 <= k < |t.children| ==> t.children[k] == ToTree(nodes, nodes[n].children[k])
    decreases |nodes| - n
  {
    var ids := nodes[n].children;
    CodeMapNode(nodes[n].name, nodes[n].kind, nodes[n].attributes,
      seq(|ids|, k requires 0 <= k < |ids| => ToTree(nodes, ids[k])))
  }

  /** The first child with a given name. */
  function FirstNamed(cs: seq<CodeMapNode>, name: string): (r: Option<CodeMapNode>)
    ensures r.Some? ==> r.value in cs && r.value.name == name
  {
    if |cs| == 0 then None
    else if cs[0].name == name then Some(cs[0])
    else FirstNamed(cs[1..], name)
  }

  /** The node of the serialised tree reached by following `path` by names. */
  function TreeFind(t: CodeMapNode, path: seq<string>): Option<CodeMapNode>
    decreases |path|
  {
    if |path| == 0 then Some(t)
    else
      match FirstNamed(t.children, path[0])
      case None => None
      case Some(c) => TreeFind(c, path[1..])
  }

  /** No two children of any node of the tree share a name. */
  predicate UniqueNames(t: CodeMapNode)
    decreases t
  {
    && (forall i, j :: 0 <= i < j < |t.children| ==> t.children[i].name != t.children[j].name)
    && (forall i :: 0 <= i < |t.children| ==> UniqueNames(t.children[i]))
  }

  lemma {:induction false} FirstNamedToTree(nodes: seq<Node>, ids: seq<nat>, cs: seq<CodeMapNode>, name: string)
    requires Linked(nodes)
    requires forall k :: 0 <= k < |ids| ==> ids[k] < |nodes|
    requires |cs| == |ids| && forall k :: 0 <= k < |ids| ==> cs[k] == ToTree(nodes, ids[k])
    ensures FirstNamed(cs, name) ==
      match ChildNamed(nodes, ids, name)
      case None => None
      case Some(c) => Some(ToTree(nodes, c))
  {
    if |ids| > 0 {
      FirstNamedToTree(nodes, ids[1..], cs[1..], name);
    }
  }

  /** Looking a path up in the serialised tree agrees with looking it up in the graph. */
  lemma {:induction false} ToTreeFind(nodes: seq<Node>, n: nat, path: seq<string>)
    requires Linked(nodes) && n < |nodes|
    ensures TreeFind(ToTree(nodes, n), path) ==
      match FindFrom(nodes, n, path)
      case None => None
      case Some(m) => Some(ToTree(nodes, m))
    decreases |path|
  {
    if |path| > 0 {
      var t := ToTree(nodes, n);
      FirstNamedToTree(nodes, nodes[n].children, t.children, path[0]);
      match ChildNamed(nodes, nodes[n].children, path[0])
      case None =>
      case Some(c) => ToTreeFind(nodes, c, path[1..]);
    }
  }

  /** Names unique among siblings in the graph are unique in the serialised tree. */
  lemma {:induction false} ToTreeUnique(nodes: seq<Node>, n: nat)
    requires Linked(nodes) && UniqueSiblings(nodes) && n < |nodes|
    ensures UniqueNames(ToTree(nodes, n))
    decreases |nodes| - n
  {
    var t := ToTree(nodes, n);
    forall i | 0 <= i < |t.children| ensures UniqueNames(t.children[i]) {
      ToTreeUnique(nodes, nodes[n].children[i]);
    }
  }

  // ------------------------------------------------------------- builder

  /**
   * A well-formed graph: a folder named `root` at position 0, children after
   * their parents, no two siblings with one name, and `paths` recording the
   * names that lead from the root to each node.
   */
  ghost predicate Wf(nodes: seq<Node>, paths: seq<seq<string>>)
  {
    && |nodes| == |paths| >= 1
    && nodes[0].name == "root" && nodes[0].kind == Folder && paths[0] == []
    && Linked(nodes)
    && UniqueSiblings(nodes)
    && PathsLinked(nodes, paths)
  }

  /** Creating a child whose name its parent does not have yet keeps the graph well formed. */
  lemma AddChildWf(nodes: seq<Node>, paths: seq<seq<string>>, m: nat, x: string, kind: NodeType)
    requires Wf(nodes, paths) && m < |nodes|
    requires ChildNamed(nodes, nodes[m].children, x).None?
    ensures Wf(AddChild(nodes, m, x, kind), paths + [paths[m] + [x]])
  {
    var r := AddChild(nodes, m, x, kind);
    var pr := paths + [paths[m] + [x]];
    AddChildUnique(nodes, m, x, kind);
    forall n, k | 0 <= n < |r| && 0 <= k < |r[n].children|
      ensures pr[r[n].children[k]] == pr[n] + [r[r[n].children[k]].name]
    {
      if n == m && k == |nodes[m].children| {
        assert r[n].children[k] == |nodes|;
      } else {
        assert n < |nodes| && r[n].children[k] == nodes[n].children[k];
      }
    }
  }

  /** Every lookup that succeeded in `a` leads to the same node in `b`. */
  ghost predicate FindsKept(a: seq<Node>, b: seq<Node>)
    requires Linked(a) && Linked(b) && |a| > 0 && |b| > 0
  {
    forall p :: FindFrom(a, 0, p).Some? ==> FindFrom(b, 0, p) == FindFrom(a, 0, p)
  }

  lemma FindsKeptAddChild(a: seq<Node>, b: seq<Node>, m: nat, x: string, kind: NodeType)
    requires Linked(a) && Linked(b) && |a| > 0 && m < |b| && FindsKept(a, b)
    ensures Linked(AddChild(b, m, x, kind)) && FindsKept(a, AddChild(b, m, x, kind))
  {
    AddChildLinked(b, m, x, kind);
    forall p | FindFrom(a, 0, p).Some? ensures FindFrom(AddChild(b, m, x, kind), 0, p) == FindFrom(a, 0, p) {
      FindFromAddChild(b, m, x, kind, 0, p);
    }
  }

  /**
   * `b` grew out of `a` while the path `full` was added: old nodes keep their
   * names and types, and each new node sits on a prefix of `full` and is a
   * File exactly when it ends `full`.
   */
  ghost predicate GrewAlong(a: seq<Node>, b: seq<Node>, pb: seq<seq<string>>, full: seq<string>)
  {
    && |a| <= |b| == |pb|
    && (forall n :: 0 <= n < |a| ==> b[n].name == a[n].name && b[n].kind == a[n].kind)
    && (forall n :: |a| <= n < |b| ==> IsPrefix(pb[n], full) && (b[n].kind == File <==> |pb[n]| == |full|))
  }

  /** Old nodes keep their attributes and new ones have none. */
  ghost predicate AttributesKept(a: seq<Node>, b: seq<Node>)
  {
    |a| <= |b| && forall n :: 0 <= n < |b| ==> b[n].attributes == if n < |a| then a[n].attributes else map[]
  }

  /** Giving the walked-to File its metrics keeps the growth and sets only its attributes. */
  lemma AttributesSetAt(a: seq<Node>, b: seq<Node>, pb: seq<seq<string>>, full: seq<string>,
                        t: nat, metrics: map<string, int>)
    requires AttributesKept(a, b) && GrewAlong(a, b, pb, full) && t < |b| && b[t].kind == File
    ensures GrewAlong(a, b[t := b[t].(attributes := metrics)], pb, full)
    ensures AttributesSet(a, b[t := b[t].(attributes := metrics)], t, metrics)
  {
  }

  /** A walk that ends on a Folder leaves every attribute as it was. */
  lemma AttributesSetElsewhere(a: seq<Node>, b: seq<Node>, t: nat, metrics: map<string, int>)
    requires AttributesKept(a, b) && t < |b| && b[t].kind != File
    ensures AttributesSet(a, b, t, metrics)
  {
  }

  lemma GrewAlongAddChild(a: seq<Node>, b: seq<Node>, pb: seq<seq<string>>, full: seq<string>,
                          m: nat, x: string, kind: NodeType)
    requires GrewAlong(a, b, pb, full) && m < |b|
    requires IsPrefix(pb[m] + [x], full) && (kind == File <==> |pb[m]| + 1 == |full|)
    ensures GrewAlong(a, AddChild(b, m, x, kind), pb + [pb[m] + [x]], full)
  {
  }

  lemma AttributesKeptAddChild(a: seq<Node>, b: seq<Node>, m: nat, x: string, kind: NodeType)
    requires AttributesKept(a, b) && m < |b|
    ensures AttributesKept(a, AddChild(b, m, x, kind))
  {
  }

  /**
   * The graph held by `addFileToTree` and `export`: the root node and every
   * node reachable from it. `paths` is proof bookkeeping only.
   */
  class CodeMapTree {
    var nodes: seq<Node>
    ghost var paths: seq<seq<string>>

    ghost predicate Valid()
      reads this
    {
      Wf(nodes, paths)
    }

    /** `{ name: "root", type: Folder, attributes: {}, children: [] }`. */
    constructor()
      ensures Valid()
      ensures nodes == [Node("root", Folder, map[], [])]
    {
      nodes := [Node("root", Folder, map[], [])];
      paths := [[]];
    }

    /** `currentNode.children.push(childNode)` for a fresh child. */
    method AddNode(parent: nat, part: string, kind: NodeType)
      requires Valid() && parent < |nodes|
      requires ChildNamed(nodes, nodes[parent].children, part).None?
      modifies this
      ensures nodes == AddChild(old(nodes), parent, part, kind)
      ensures paths == old(paths) + [old(paths)[parent] + [part]]
      ensures Valid()
    {
      AddChildWf(nodes, paths, parent, part, kind);
      nodes := AddChild(nodes, parent, part, kind);
      paths := paths + [paths[parent] + [part]];
    }

    /**
     * The cursor loop of `addFileToTree`: from the root, follow or create
     * the child named by each segment in turn; the result is the node the
     * walk ends on.
     */
    method Walk(pathParts: seq<string>) returns (currentNode: nat)
      requires Valid()
      modifies this
      ensures Valid() && Linked(old(nodes))
      ensures currentNode < |nodes| && FindFrom(nodes, 0, pathParts) == Some(currentNode)
      ensures FindsKept(old(nodes), nodes)
      ensures GrewAlong(old(nodes), nodes, paths, pathParts)
      ensures AttributesKept(old(nodes), nodes)
      ensures (nodes, currentNode) == Insert(old(nodes), 0, pathParts)
      ensures old(paths) <= paths
    {
      ghost var start := nodes;
      ghost var startPaths := paths;
      currentNode := 0;
      for i := 0 to |pathParts|
        invariant Valid() && Linked(start) && |start| > 0
        invariant currentNode < |nodes| && FindFrom(nodes, 0, pathParts[..i]) == Some(currentNode)
        invariant paths[currentNode] == pathParts[..i]
        invariant FindsKept(start, nodes)
        invariant GrewAlong(start, nodes, paths, pathParts)
        invariant AttributesKept(start, nodes)
        invariant Insert(nodes, currentNode, pathParts[i..]) == Insert(start, 0, pathParts)
        invariant startPaths <= paths
      {
        var part := pathParts[i];
        var childNode := ChildNamed(nodes, nodes[currentNode].children, part);
        if childNode.None? {
          var kind := if i == |pathParts| - 1 then File else Folder;
          ghost var before := nodes;
          var created := |nodes|;
          Grow(start, before, paths, pathParts, i, currentNode, kind);
          AddNode(currentNode, part, kind);
          assert nodes == AddChild(before, currentNode, part, kind);
          currentNode := created;
        } else {
          Descend(nodes, paths, pathParts, i, currentNode);
          currentNode := childNode.value;
          assert FindFrom(nodes, 0, pathParts[..i + 1]) == Some(currentNode);
        }
      }
      assert pathParts[..|pathParts|] == pathParts;
    }

    /** `currentNode.attributes = file.metrics`. */
    method SetAttributes(n: nat, metrics: map<string, int>)
      requires Valid() && n < |nodes|
      modifies this
      ensures nodes == old(nodes)[n := old(nodes)[n].(attributes := metrics)]
      ensures paths == old(paths)
      ensures Valid()
      ensures forall p :: FindFrom(nodes, 0, p) == FindFrom(old(nodes), 0, p)
    {
      ghost var before := nodes;
      nodes := nodes[n := nodes[n].(attributes := metrics)];
      assert SameShape(before, nodes) by {
        forall m | 0 <= m < |before| ensures nodes[m].name == before[m].name && nodes[m].children == before[m].children {
        }
      }
      forall p ensures FindFrom(nodes, 0, p) == FindFrom(before, 0, p) {
        FindFromSameShape(before, nodes, 0, p);
      }
      assert UniqueSiblings(nodes) by {
        forall m, i, j | 0 <= m < |nodes| && 0 <= i < j < |nodes[m].children|
          ensures nodes[nodes[m].children[i]].name != nodes[nodes[m].children[j]].name
        {
          assert nodes[m].children == before[m].children;
        }
      }
    }
  }

  /** One step of `addFileToTree` that creates the missing child. */
  lemma Grow(start: seq<Node>, nodes: seq<Node>, paths: seq<seq<string>>, full: seq<string>,
             i: nat, m: nat, kind: NodeType)
    requires Wf(nodes, paths) && Linked(start) && |start| > 0 && i < |full| && m < |nodes|
    requires FindFrom(nodes, 0, full[..i]) == Some(m) && paths[m] == full[..i]
    requires ChildNamed(nodes, nodes[m].children, full[i]).None?
    requires FindsKept(start, nodes) && GrewAlong(start, nodes, paths, full) && AttributesKept(start, nodes)
    requires kind == File <==> i == |full| - 1
    ensures Linked(AddChild(nodes, m, full[i], kind))
    ensures FindFrom(AddChild(nodes, m, full[i], kind), 0, full[..i + 1]) == Some(|nodes|)
    ensures FindsKept(start, AddChild(nodes, m, full[i], kind))
    ensures GrewAlong(start, AddChild(nodes, m, full[i], kind), paths + [paths[m] + [full[i]]], full)
    ensures AttributesKept(start, AddChild(nodes, m, full[i], kind))
    ensures paths[m] + [full[i]] == full[..i + 1]
    ensures Insert(AddChild(nodes, m, full[i], kind), |nodes|, full[i + 1..]) == Insert(nodes, m, full[i..])
  {
    Seqs.TakeOneMore(full, i);
    assert full[i..][0] == full[i] && full[i..][1..] == full[i + 1..];
    GrewAlongAddChild(start, nodes, paths, full, m, full[i], kind);
    AttributesKeptAddChild(start, nodes, m, full[i], kind);
    FindsKeptAddChild(start, nodes, m, full[i], kind);
    FindAddedChild(nodes, m, full[i], kind, full[..i]);
  }

  /** One step of `addFileToTree` that follows an existing child. */
  lemma Descend(nodes: seq<Node>, paths: seq<seq<string>>, full: seq<string>, i: nat, m: nat)
    requires Wf(nodes, paths) && m < |nodes| && i < |full|
    requires FindFrom(nodes, 0, full[..i]) == Some(m) && paths[m] == full[..i]
    requires ChildNamed(nodes, nodes[m].children, full[i]).Some?
    ensures FindFrom(nodes, 0, full[..i + 1]) == ChildNamed(nodes, nodes[m].children, full[i])
    ensures paths[ChildNamed(nodes, nodes[m].children, full[i]).value] == full[..i + 1]
    ensures Insert(nodes, ChildNamed(nodes, nodes[m].children, full[i]).value, full[i + 1..]) == Insert(nodes, m, full[i..])
  {
    assert full[i..][0] == full[i] && full[i..][1..] == full[i + 1..];
    var c := ChildNamed(nodes, nodes[m].children, full[i]).value;
    var k :| 0 <= k < |nodes[m].children| && nodes[m].children[k] == c;
    Seqs.TakeOneMore(full, i);
    FindFromAppend(nodes, 0, full[..i], full[i]);
  }

  /** No later file has the same segments as file `j`. */
  predicate LastWithPath(data: seq<ParsedFile>, j: nat)
    requires j < |data|
  {
    forall k :: j < k < |data| ==> Segments(data[k].path) != Segments(data[j].path)
  }

  /**
   * After `data` was added: every file's path leads to a node, and where the
   * file is the last with its path and that node is a File, the node carries
   * the file's metrics.
   */
  ghost predicate Holds(nodes: seq<Node>, paths: seq<seq<string>>, data: seq<ParsedFile>)
  {
    && Wf(nodes, paths)
    && (forall j :: 0 <= j < |data| ==> FindFrom(nodes, 0, Segments(data[j].path)).Some?)
    && (forall j :: 0 <= j < |data| && LastWithPath(data, j) ==>
          var t := FindFrom(nodes, 0, Segments(data[j].path)).value;
          nodes[t].kind == File ==> nodes[t].attributes == data[j].metrics)
  }

  /** Every node but the root sits on a prefix of some file's segments. */
  ghost predicate Covered(paths: seq<seq<string>>, data: seq<ParsedFile>)
  {
    forall n :: 0 < n < |paths| ==> OnSomeFile(paths[n], data)
  }

  /** `p` is a prefix of some file's segments. */
  ghost predicate OnSomeFile(p: seq<string>, data: seq<ParsedFile>)
  {
    exists j :: 0 <= j < |data| && IsPrefix(p, Segments(data[j].path))
  }

  /** The attributes after `addFileToTree(file)` on a graph that was `a`. */
  ghost predicate AttributesSet(a: seq<Node>, b: seq<Node>, target: nat, metrics: map<string, int>)
    requires |b| >= |a|
  {
    forall n :: 0 <= n < |b| ==>
      b[n].attributes ==
        if n == target && b[n].kind == File then metrics
        else if n < |a| then a[n].attributes
        else map[]
  }

  /** Adding one more file keeps what `Holds` says about the earlier ones. */
  lemma HoldsAddFile(a: seq<Node>, pa: seq<seq<string>>, b: seq<Node>, pb: seq<seq<string>>,
                     data: seq<ParsedFile>, file: ParsedFile)
    requires Holds(a, pa, data) && Wf(b, pb) && FindsKept(a, b)
    requires GrewAlong(a, b, pb, Segments(file.path))
    requires FindFrom(b, 0, Segments(file.path)).Some?
    requires AttributesSet(a, b, FindFrom(b, 0, Segments(file.path)).value, file.metrics)
    ensures Holds(b, pb, data + [file])
  {
    var all := data + [file];
    var target := FindFrom(b, 0, Segments(file.path)).value;
    forall j | 0 <= j < |all| ensures FindFrom(b, 0, Segments(all[j].path)).Some? {
      if j < |data| { assert all[j] == data[j]; }
    }
    forall j | 0 <= j < |all| && LastWithPath(all, j)
      ensures var t := FindFrom(b, 0, Segments(all[j].path)).value;
        b[t].kind == File ==> b[t].attributes == all[j].metrics
    {
      if j < |data| {
        assert all[j] == data[j];
        assert all[|data|] == file;
        assert LastWithPath(data, j) by {
          forall k | j < k < |data| ensures Segments(data[k].path) != Segments(data[j].path) {
            assert all[k] == data[k];
          }
        }
        var t := FindFrom(b, 0, Segments(data[j].path)).value;
        FoundNodeHasThatPath(b, pb, Segments(data[j].path));
        FoundNodeHasThatPath(b, pb, Segments(file.path));
        assert t != target;
      }
    }
  }

  /** Adding a file creates nodes only on prefixes of its own segments. */
  lemma CoveredAddFile(a: seq<Node>, pa: seq<seq<string>>, b: seq<Node>, pb: seq<seq<string>>,
                       data: seq<ParsedFile>, file: ParsedFile)
    requires Covered(pa, data) && |a| == |pa| && pa <= pb
    requires GrewAlong(a, b, pb, Segments(file.path))
    ensures Covered(pb, data + [file])
  {
    var all := data + [file];
    forall n | 0 < n < |pb| ensures OnSomeFile(pb[n], all) {
      if n < |pa| {
        assert pb[n] == pa[n];
        var j :| 0 <= j < |data| && IsPrefix(pa[n], Segments(data[j].path));
        assert all[j] == data[j];
        assert IsPrefix(pb[n], Segments(all[j].path));
      } else {
        assert all[|data|] == file;
        assert IsPrefix(pb[n], Segments(all[|data|].path));
      }
    }
  }

  /** One more turn of the loop of `export` keeps `Holds`. */
  lemma HoldsStep(a: seq<Node>, pa: seq<seq<string>>, b: seq<Node>, pb: seq<seq<string>>,
                  data: seq<ParsedFile>, k: nat)
    requires k < |data| && Holds(a, pa, data[..k]) && Wf(b, pb) && FindsKept(a, b)
    requires GrewAlong(a, b, pb, Segments(data[k].path))
    requires FindFrom(b, 0, Segments(data[k].path)).Some?
    requires AttributesSet(a, b, FindFrom(b, 0, Segments(data[k].path)).value, data[k].metrics)
    ensures Holds(b, pb, data[..k + 1])
  {
    assert data[..k + 1] == data[..k] + [data[k]];
    HoldsAddFile(a, pa, b, pb, data[..k], data[k]);
  }

  /** One more turn of the loop of `export` keeps `Covered`. */
  lemma CoveredStep(a: seq<Node>, pa: seq<seq<string>>, b: seq<Node>, pb: seq<seq<string>>,
                    data: seq<ParsedFile>, k: nat)
    requires k < |data| && Covered(pa, data[..k]) && |a| == |pa| && pa <= pb
    requires GrewAlong(a, b, pb, Segments(data[k].path))
    ensures Covered(pb, data[..k + 1])
  {
    assert data[..k + 1] == data[..k] + [data[k]];
    CoveredAddFile(a, pa, b, pb, data[..k], data[k]);
  }

  lemma BuildStep(data: seq<ParsedFile>, k: nat)
    requires k < |data|
    ensures Build(data[..k + 1]) == AddFile(Build(data[..k]), data[k])
  {
    assert data[..k + 1][..k] == data[..k];
  }

  /** `{ metricName: "absolute" }` for every metric of the first file; empty without files. */
  function AttributeTypesOf(data: seq<ParsedFile>): map<string, string>
  {
    if |data| == 0 then map[] else map k | k in data[0].metrics :: "absolute"
  }

  /**
   * The walk of `addFileToTree` from node `cur` along `parts` as a value: the
   * node list afterwards and the node the walk ends on. A missing child is
   * created as a File when it is the path's last segment.
   */
  function Insert(nodes: seq<Node>, cur: nat, parts: seq<string>): (r: (seq<Node>, nat))
    requires Linked(nodes) && cur < |nodes|
    ensures Linked(r.0) && |nodes| <= |r.0| && r.1 < |r.0|
    decreases |parts|
  {
    if |parts| == 0 then (nodes, cur)
    else
      match ChildNamed(nodes, nodes[cur].children, parts[0])
      case Some(c) => Insert(nodes, c, parts[1..])
      case None =>
        var kind := if |parts| == 1 then File else Folder;
        AddChildLinked(nodes, cur, parts[0], kind);
        Insert(AddChild(nodes, cur, parts[0], kind), |nodes|, parts[1..])
  }

  lemma SetAttributesLinked(nodes: seq<Node>, t: nat, metrics: map<string, int>)
    requires Linked(nodes) && t < |nodes|
    ensures Linked(nodes[t := nodes[t].(attributes := metrics)])
  {
    var b := nodes[t := nodes[t].(attributes := metrics)];
    assert SameShape(nodes, b) by {
      forall m | 0 <= m < |nodes| ensures nodes[m].name == b[m].name && nodes[m].children == b[m].children {
      }
    }
    FindFromSameShape(nodes, b, 0, []);
  }

  /** `addFileToTree(rootNode, file)` as a value. */
  function AddFile(nodes: seq<Node>, file: ParsedFile): (r: seq<Node>)
    requires Linked(nodes) && |nodes| > 0
    ensures Linked(r) && |nodes| <= |r|
  {
    var (walked, t) := Insert(nodes, 0, Segments(file.path));
    if walked[t].kind == File then
      SetAttributesLinked(walked, t, file.metrics);
      walked[t := walked[t].(attributes := file.metrics)]
    else walked
  }

  /** The node list after adding `data` in order to a lone root. */
  function Build(data: seq<ParsedFile>): (nodes: seq<Node>)
    ensures Linked(nodes) && |nodes| >= 1
  {
    if |data| == 0 then [Node("root", Folder, map[], [])]
    else AddFile(Build(data[..|data| - 1]), data[|data| - 1])
  }

  /** The value `export(data)` serialises. */
  function CodeChartaFile(data: seq<ParsedFile>): ExportCcFile
  {
    ExportCcFile("MegaParser Project", "1.0", [ToTree(Build(data), 0)], [],
      AttributeTypes(AttributeTypesOf(data), map[]))
  }

  class CodeChartaJsonExport {
    const name: string
    const supportedExtensions: seq<string>

    constructor()
      ensures name == "codeChartaJson" && supportedExtensions == ["cc.json"]
    {
      name := "codeChartaJson";
      supportedExtensions := ["cc.json"];
    }

    /**
     * `addFileToTree`: walk down from the root along the file's segments,
     * creating each missing child (a File for the last segment, a Folder
     * otherwise), then give the final node the file's metrics if it is a File.
     */
    method AddFileToTree(tree: CodeMapTree, file: ParsedFile)
      requires tree.Valid()
      modifies tree
      ensures tree.Valid() && Linked(old(tree.nodes))
      ensures FindsKept(old(tree.nodes), tree.nodes)
      ensures FindFrom(tree.nodes, 0, Segments(file.path)).Some?
      ensures GrewAlong(old(tree.nodes), tree.nodes, tree.paths, Segments(file.path))
      ensures AttributesSet(old(tree.nodes), tree.nodes, FindFrom(tree.nodes, 0, Segments(file.path)).value, file.metrics)
      ensures tree.nodes == AddFile(old(tree.nodes), file)
      ensures old(tree.paths) <= tree.paths
    {
      var pathParts := Segments(file.path);
      var currentNode := tree.Walk(pathParts);
      ghost var walked := tree.nodes;
      if tree.nodes[currentNode].kind == File {
        tree.SetAttributes(currentNode, file.metrics);
        AttributesSetAt(old(tree.nodes), walked, tree.paths, pathParts, currentNode, file.metrics);
      } else {
        AttributesSetElsewhere(old(tree.nodes), walked, currentNode, file.metrics);
      }
    }

    /** The loop of `export` that adds every file to a fresh root. */
    method BuildTree(data: seq<ParsedFile>) returns (rootNode: CodeMapTree)
      ensures Holds(rootNode.nodes, rootNode.paths, data) && Covered(rootNode.paths, data)
      ensures rootNode.nodes == Build(data)
    {
      rootNode := new CodeMapTree();
      for k := 0 to |data|
        invariant Holds(rootNode.nodes, rootNode.paths, data[..k]) && Covered(rootNode.paths, data[..k])
        invariant rootNode.nodes == Build(data[..k])
      {
        ghost var before := rootNode.nodes;
        ghost var beforePaths := rootNode.paths;
        AddFileToTree(rootNode, data[k]);
        HoldsStep(before, beforePaths, rootNode.nodes, rootNode.paths, data, k);
        CoveredStep(before, beforePaths, rootNode.nodes, rootNode.paths, data, k);
        BuildStep(data, k);
      }
      assert data[..|data|] == data;
    }

    /** `export`: the envelope around the tree of all files and the attribute types of the first. */
    method Export(data: seq<ParsedFile>) returns (out: ExportCcFile)
      ensures out.projectName == "MegaParser Project" && out.apiVersion == "1.0"
      ensures out.edges == [] && out.attributeTypes == AttributeTypes(AttributeTypesOf(data), map[])
      ensures |out.nodes| == 1 && out.nodes[0].name == "root" && out.nodes[0].kind == Folder
      ensures |data| == 0 ==> out.nodes[0].children == []
      ensures UniqueNames(out.nodes[0]) && Within(out.nodes[0], [], data)
      ensures forall j, i :: 0 <= j < |data| && 0 <= i <= |Segments(data[j].path)| ==>
        TreeFind(out.nodes[0], Segments(data[j].path)[..i]).Some?
      ensures forall j :: 0 <= j < |data| && LastWithPath(data, j) ==>
        TreeFind(out.nodes[0], Segments(data[j].path)).Some? &&
        (TreeFind(out.nodes[0], Segments(data[j].path)).value.kind == File ==>
           TreeFind(out.nodes[0], Segments(data[j].path)).value.attributes == data[j].metrics)
      ensures out == CodeChartaFile(data)
    {
      var rootNode := BuildTree(data);
      var nodeAttributeTypes := AttributeTypesLoop(data);
      Serialise(rootNode.nodes, rootNode.paths, data);
      out := ExportCcFile("MegaParser Project", "1.0", [ToTree(rootNode.nodes, 0)], [],
        AttributeTypes(nodeAttributeTypes, map[]));
    }
  }

  /** The loop over `Object.keys(data[0].metrics)`. */
  method AttributeTypesLoop(data: seq<ParsedFile>) returns (nodeAttributeTypes: map<string, string>)
    ensures nodeAttributeTypes == AttributeTypesOf(data)
  {
    nodeAttributeTypes := map[];
    if |data| > 0 {
      var keys := data[0].metrics.Keys;
      while keys != {}
        invariant keys <= data[0].metrics.Keys
        invariant nodeAttributeTypes == map m | m in data[0].metrics.Keys - keys :: "absolute"
        decreases |keys|
      {
        var metricName :| metricName in keys;
        nodeAttributeTypes := nodeAttributeTypes[metricName := "absolute"];
        keys := keys - {metricName};
      }
    }
  }

  /** What `Holds` says about the graph, read on the serialised tree. */
  lemma Serialise(nodes: seq<Node>, paths: seq<seq<string>>, data: seq<ParsedFile>)
    requires Holds(nodes, paths, data) && Covered(paths, data)
    ensures UniqueNames(ToTree(nodes, 0))
    ensures Within(ToTree(nodes, 0), [], data)
    ensures forall j, i :: 0 <= j < |data| && 0 <= i <= |Segments(data[j].path)| ==>
      TreeFind(ToTree(nodes, 0), Segments(data[j].path)[..i]).Some?
    ensures forall j :: 0 <= j < |data| && LastWithPath(data, j) ==>
      TreeFind(ToTree(nodes, 0), Segments(data[j].path)).Some? &&
      (TreeFind(ToTree(nodes, 0), Segments(data[j].path)).value.kind == File ==>
         TreeFind(ToTree(nodes, 0), Segments(data[j].path)).value.attributes == data[j].metrics)
  {
    ToTreeUnique(nodes, 0);
    ToTreeWithin(nodes, paths, 0, data);
    forall j, i | 0 <= j < |data| && 0 <= i <= |Segments(data[j].path)|
      ensures TreeFind(ToTree(nodes, 0), Segments(data[j].path)[..i]).Some?
    {
      FindFromPrefix(nodes, 0, Segments(data[j].path), i);
      ToTreeFind(nodes, 0, Segments(data[j].path)[..i]);
    }
    forall j | 0 <= j < |data| && LastWithPath(data, j)
      ensures TreeFind(ToTree(nodes, 0), Segments(data[j].path)).Some? &&
        (TreeFind(ToTree(nodes, 0), Segments(data[j].path)).value.kind == File ==>
           TreeFind(ToTree(nodes, 0), Segments(data[j].path)).value.attributes == data[j].metrics)
    {
      ToTreeFind(nodes, 0, Segments(data[j].path));
    }
  }

  /**
   * Below `t`, which sits at path `at`, every node lies on a prefix of some
   * file's segments: nothing else was created.
   */
  ghost predicate Within(t: CodeMapNode, at: seq<string>, data: seq<ParsedFile>)
    decreases t
  {
    forall i :: 0 <= i < |t.children| ==>
      && OnSomeFile(at + [t.children[i].name], data)
      && Within(t.children[i], at + [t.children[i].name], data)
  }

  lemma {:induction false} ToTreeWithin(nodes: seq<Node>, paths: seq<seq<string>>, n: nat, data: seq<ParsedFile>)
    requires Linked(nodes) && |paths| == |nodes| && n < |nodes|
    requires PathsLinked(nodes, paths) && Covered(paths, data)
    ensures Within(ToTree(nodes, n), paths[n], data)
    decreases |nodes| - n
  {
    var t := ToTree(nodes, n);
    forall i | 0 <= i < |t.children|
      ensures && OnSomeFile(paths[n] + [t.children[i].name], data)
              && Within(t.children[i], paths[n] + [t.children[i].name], data)
    {
      var c := nodes[n].children[i];
      assert paths[c] == paths[n] + [nodes[c].name];
      ToTreeWithin(nodes, paths, c, data);
    }
  }

  /** Lists with the same names and children everywhere. */
  predicate SameShape(a: seq<Node>, b: seq<Node>)
  {
    |a| == |b| && forall m :: 0 <= m < |a| ==> a[m].name == b[m].name && a[m].children == b[m].children
  }

  lemma {:induction false} ChildNamedSameShape(a: seq<Node>, b: seq<Node>, ids: seq<nat>, name: string)
    requires SameShape(a, b)
    requires forall k :: 0 <= k < |ids| ==> ids[k] < |a|
    ensures ChildNamed(a, ids, name) == ChildNamed(b, ids, name)
  {
    if |ids| > 0 {
      ChildNamedSameShape(a, b, ids[1..], name);
    }
  }

  /** Only names and children matter to a lookup. */
  lemma {:induction false} FindFromSameShape(a: seq<Node>, b: seq<Node>, n: nat, path: seq<string>)
    requires Linked(a) && SameShape(a, b) && n < |a|
    ensures Linked(b)
    ensures FindFrom(a, n, path) == FindFrom(b, n, path)
    decreases |path|
  {
    assert Linked(b) by {
      forall m, k | 0 <= m < |b| && 0 <= k < |b[m].children| ensures m < b[m].children[k] < |b| {
        assert b[m].children == a[m].children;
      }
    }
    if |path| > 0 {
      ChildNamedSameShape(a, b, a[n].children, path[0]);
      match ChildNamed(a, a[n].children, path[0])
      case None =>
      case Some(c) => FindFromSameShape(a, b, c, path[1..]);
    }
  }
}
