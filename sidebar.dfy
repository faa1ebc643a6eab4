/**
 * The file tree of the web application's sidebar: each analysed file's
 * `/`-separated path is walked from a root folder, an item is created for
 * every segment not yet present under the current level, and then every
 * children list is sorted with folders first and by name. The name order
 * (`localeCompare`) is a parameter, required only to be a total preorder.
 */
module Sidebar {
  import opened Base
  import opened Text
  import WebStore

  datatype Kind = FileItem | FolderItem

  /** An item's `children` field: absent (`undefined`) or a list. */
  datatype Children = Absent | Listed(items: seq<Item>)

  /**
   * A tree item. `path` and `language` are set on items created for the
   * last segment of a path; `children` is absent on such items until a
   * longer path passes through them.
   */
  datatype Item = Item(name: string, kind: Kind, path: Option<string>, language: Option<string>, children: Children)

  /** The children list, empty when absent. */
  function Kids(item: Item): seq<Item>
  {
    if item.children.Listed? then item.children.items else []
  }

  /** `children.find(item => item.name === name)`, as a position, or -1. */
  function IndexOfName(items: seq<Item>, name: string): (k: int)
    ensures -1 <= k < |items|
    ensures k >= 0 ==> items[k].name == name
    ensures forall j :: 0 <= j < |items| && (k == -1 || j < k) ==> items[j].name != name
  {
    if |items| == 0 then -1
    else if items[0].name == name then 0
    else
      var k := IndexOfName(items[1..], name);
      if k == -1 then -1 else k + 1
  }

  /** The item created for a segment: a file item for the last one, an empty folder otherwise. */
  function NewItem(part: string, isLastPart: bool, file: WebStore.File): Item
  {
    if isLastPart then Item(part, FileItem, Some(file.path), Some(file.language), Absent)
    else Item(part, FolderItem, None, None, Listed([]))
  }

  /**
   * One file's walk below `level`, over the remaining segments `parts`:
   * the first item named like the segment is reused, otherwise a new one is
   * appended; the walk goes on into the item unless the segment was the
   * last. A segment found as the last one changes nothing.
   */
  function Insert(level: Item, parts: seq<string>, file: WebStore.File): (r: Item)
    requires |parts| >= 1
    ensures r.name == level.name && r.kind == level.kind && r.path == level.path && r.language == level.language
    ensures r.children.Listed? || r == level
    decreases |parts|
  {
    var kids := Kids(level);
    var k := IndexOfName(kids, parts[0]);
    var isLastPart := |parts| == 1;
    if k == -1 then
      var newItem := NewItem(parts[0], isLastPart, file);
      var placed := if isLastPart then newItem else Insert(newItem, parts[1..], file);
      level.(children := Listed(kids + [placed]))
    else if isLastPart then level
    else level.(children := Listed(kids[k := Insert(kids[k], parts[1..], file)]))
  }

  /** The root the walk starts from. */
  const EmptyRoot: Item := Item("root", FolderItem, None, None, Listed([]))

  /** The loop body of `buildFileTree`: files without a path are skipped. */
  function AddFile(root: Item, file: WebStore.File): Item
  {
    if file.path == "" then root else Insert(root, Split(file.path, '/'), file)
  }

  /** The root after the loop over `files`. */
  function Grow(files: seq<WebStore.File>): Item
  {
    if |files| == 0 then EmptyRoot else AddFile(Grow(files[..|files| - 1]), files[|files| - 1])
  }

  // ---------------------------------------------------------------- tree invariants

  /** No two items of the list share a name. */
  ghost predicate Distinct(items: seq<Item>)
  {
    forall i, j :: 0 <= i < |items| && 0 <= j < |items| && i != j ==> items[i].name != items[j].name
  }

  /** Sibling names are unique at every level below `item`. */
  ghost predicate UniqueTree(item: Item)
    decreases item
  {
    match item.children
    case Absent => true
    case Listed(kids) => Distinct(kids) && forall c :: c in kids ==> UniqueTree(c)
  }

  /**
   * Below `item`, which sits at segment list `at`: exactly the file items
   * carry a path and a language, and a file item's path splits into the
   * segments leading to it.
   */
  ghost predicate Tagged(item: Item, at: seq<string>)
    decreases item
  {
    (item.kind == FileItem <==> item.path.Some?) && (item.path.Some? <==> item.language.Some?) &&
    (item.path.Some? ==> Split(item.path.value, '/') == at) &&
    match item.children
    case Absent => true
    case Listed(kids) => forall c :: c in kids ==> Tagged(c, at + [c.name])
  }

  /** The segments `parts` lead, name by name, from the list `items` to an item. */
  ghost predicate PresentIn(items: seq<Item>, parts: seq<string>)
    decreases |parts|, 1
  {
    |parts| == 0 || exists c :: c in items && c.name == parts[0] && Present(c, parts[1..])
  }

  ghost predicate Present(item: Item, parts: seq<string>)
    decreases |parts|, 2
  {
    |parts| == 0 || PresentIn(Kids(item), parts)
  }

  lemma {:induction false} InsertUnique(level: Item, parts: seq<string>, file: WebStore.File)
    requires |parts| >= 1 && UniqueTree(level)
    ensures UniqueTree(Insert(level, parts, file))
    decreases |parts|
  {
    var kids := Kids(level);
    var k := IndexOfName(kids, parts[0]);
    if |parts| > 1 {
      if k == -1 {
        InsertUnique(NewItem(parts[0], false, file), parts[1..], file);
      } else {
        KidsUnique(level);
        InsertUnique(kids[k], parts[1..], file);
      }
    }
    if k == -1 {
      InsertUniqueNew(level, parts, file);
    } else if |parts| > 1 {
      InsertUniqueExisting(level, parts, file, k);
    }
  }

  /** The items of a sibling-unique item's list are sibling-unique, and their names distinct. */
  lemma KidsUnique(level: Item)
    requires UniqueTree(level)
    ensures Distinct(Kids(level)) && forall c :: c in Kids(level) ==> UniqueTree(c)
  {
  }

  /** An item given a list of distinct, sibling-unique items is sibling-unique. */
  lemma UniqueWithKids(level: Item, kids: seq<Item>)
    requires Distinct(kids) && forall c :: c in kids ==> UniqueTree(c)
    ensures UniqueTree(level.(children := Listed(kids)))
  {
  }

  /** The case of a new item: its name is not yet in the list. */
  lemma InsertUniqueNew(level: Item, parts: seq<string>, file: WebStore.File)
    requires |parts| >= 1 && UniqueTree(level)
    requires IndexOfName(Kids(level), parts[0]) == -1
    requires |parts| > 1 ==> UniqueTree(Insert(NewItem(parts[0], false, file), parts[1..], file))
    ensures UniqueTree(Insert(level, parts, file))
  {
    var kids := Kids(level);
    var newItem := NewItem(parts[0], |parts| == 1, file);
    var placed := if |parts| == 1 then newItem else Insert(newItem, parts[1..], file);
    assert UniqueTree(placed);
    KidsUnique(level);
    var kids' := kids + [placed];
    assert forall c :: c in kids' ==> c in kids || c == placed;
    assert Distinct(kids');
    UniqueWithKids(level, kids');
  }

  /** The case of an existing item: the walk below it keeps its name. */
  lemma InsertUniqueExisting(level: Item, parts: seq<string>, file: WebStore.File, k: int)
    requires |parts| > 1 && UniqueTree(level)
    requires k == IndexOfName(Kids(level), parts[0]) && k >= 0
    requires UniqueTree(Insert(Kids(level)[k], parts[1..], file))
    ensures UniqueTree(Insert(level, parts, file))
  {
    var kids := Kids(level);
    var x := Insert(kids[k], parts[1..], file);
    KidsUnique(level);
    var kids' := kids[k := x];
    assert forall j :: 0 <= j < |kids| ==> kids'[j].name == kids[j].name;
    assert forall c :: c in kids' ==> c in kids || c == x;
    UniqueWithKids(level, kids');
  }

  lemma {:induction false} InsertTagged(level: Item, at: seq<string>, parts: seq<string>, file: WebStore.File)
    requires |parts| >= 1 && Tagged(level, at) && Split(file.path, '/') == at + parts
    ensures Tagged(Insert(level, parts, file), at)
    decreases |parts|
  {
    var kids := Kids(level);
    var k := IndexOfName(kids, parts[0]);
    if |parts| > 1 {
      assert at + parts == (at + [parts[0]]) + parts[1..];
      if k == -1 {
        InsertTagged(NewItem(parts[0], false, file), at + [parts[0]], parts[1..], file);
      } else {
        KidsTagged(level, at);
        InsertTagged(kids[k], at + [parts[0]], parts[1..], file);
      }
    }
    if k == -1 {
      InsertTaggedNew(level, at, parts, file);
    } else if |parts| > 1 {
      InsertTaggedExisting(level, at, parts, file, k);
    }
  }

  /** The items of a tagged item's list are tagged one segment further down. */
  lemma KidsTagged(level: Item, at: seq<string>)
    requires Tagged(level, at)
    ensures forall c :: c in Kids(level) ==> Tagged(c, at + [c.name])
  {
  }

  /** A tagged item given a list of items tagged one segment further down stays tagged. */
  lemma TaggedWithKids(level: Item, at: seq<string>, kids: seq<Item>)
    requires Tagged(level, at)
    requires forall c :: c in kids ==> Tagged(c, at + [c.name])
    ensures Tagged(level.(children := Listed(kids)), at)
  {
  }

  /** The case of a new item: the walk below it, if any, is tagged. */
  lemma InsertTaggedNew(level: Item, at: seq<string>, parts: seq<string>, file: WebStore.File)
    requires |parts| >= 1 && Tagged(level, at) && Split(file.path, '/') == at + parts
    requires IndexOfName(Kids(level), parts[0]) == -1
    requires |parts| > 1 ==> Tagged(Insert(NewItem(parts[0], false, file), parts[1..], file), at + [parts[0]])
    ensures Tagged(Insert(level, parts, file), at)
  {
    var kids := Kids(level);
    var newItem := NewItem(parts[0], |parts| == 1, file);
    var placed := if |parts| == 1 then newItem else Insert(newItem, parts[1..], file);
    if |parts| == 1 {
      assert parts == [parts[0]];
    }
    assert Tagged(placed, at + [placed.name]);
    KidsTagged(level, at);
    assert forall c :: c in kids + [placed] ==> c in kids || c == placed;
    TaggedWithKids(level, at, kids + [placed]);
  }

  /** The case of an existing item: the walk below it is tagged. */
  lemma InsertTaggedExisting(level: Item, at: seq<string>, parts: seq<string>, file: WebStore.File, k: int)
    requires |parts| > 1 && Tagged(level, at)
    requires k == IndexOfName(Kids(level), parts[0]) && k >= 0
    requires Tagged(Insert(Kids(level)[k], parts[1..], file), at + [parts[0]])
    ensures Tagged(Insert(level, parts, file), at)
  {
    var kids := Kids(level);
    var x := Insert(kids[k], parts[1..], file);
    KidsTagged(level, at);
    assert forall c :: c in kids[k := x] ==> c in kids || c == x;
    TaggedWithKids(level, at, kids[k := x]);
  }

  /** After the walk, the file's segments lead to an item. */
  lemma {:induction false} InsertPresent(level: Item, parts: seq<string>, file: WebStore.File)
    requires |parts| >= 1
    ensures Present(Insert(level, parts, file), parts)
    decreases |parts|
  {
    var kids := Kids(level);
    var k := IndexOfName(kids, parts[0]);
    var isLastPart := |parts| == 1;
    var r := Insert(level, parts, file);
    if k == -1 {
      var newItem := NewItem(parts[0], isLastPart, file);
      var placed := if isLastPart then newItem else Insert(newItem, parts[1..], file);
      if !isLastPart {
        InsertPresent(newItem, parts[1..], file);
      }
      assert placed in Kids(r) && placed.name == parts[0] && Present(placed, parts[1..]);
    } else if isLastPart {
      assert kids[k] in Kids(r) && Present(kids[k], parts[1..]);
    } else {
      var x := Insert(kids[k], parts[1..], file);
      InsertPresent(kids[k], parts[1..], file);
      assert Kids(r)[k] == x;
      assert x in Kids(r) && x.name == parts[0] && Present(x, parts[1..]);
    }
  }

  /** The walk keeps every item that was already reachable. */
  lemma {:induction false} InsertKeeps(level: Item, parts: seq<string>, file: WebStore.File, q: seq<string>)
    requires |parts| >= 1 && Present(level, q)
    ensures Present(Insert(level, parts, file), q)
    decreases |q|
  {
    if |q| > 0 {
      var kids := Kids(level);
      var k := IndexOfName(kids, parts[0]);
      var isLastPart := |parts| == 1;
      var r := Insert(level, parts, file);
      var c :| c in kids && c.name == q[0] && Present(c, q[1..]);
      if k == -1 {
        var newItem := NewItem(parts[0], isLastPart, file);
        var placed := if isLastPart then newItem else Insert(newItem, parts[1..], file);
        assert Kids(r) == kids + [placed];
        assert c in Kids(r);
      } else if !isLastPart {
        var x := Insert(kids[k], parts[1..], file);
        assert Kids(r) == kids[k := x];
        if c == kids[k] {
          InsertKeeps(kids[k], parts[1..], file, q[1..]);
          assert Kids(r)[k] == x;
          assert x in Kids(r) && x.name == q[0] && Present(x, q[1..]);
        } else {
          var j :| 0 <= j < |kids| && kids[j] == c;
          assert Kids(r)[j] == c;
        }
      }
    }
  }

  /** A walk along segments that are already present changes nothing. */
  lemma {:induction false} InsertExisting(level: Item, parts: seq<string>, file: WebStore.File)
    requires |parts| >= 1 && UniqueTree(level) && Present(level, parts)
    ensures Insert(level, parts, file) == level
    decreases |parts|
  {
    var kids := Kids(level);
    var k := IndexOfName(kids, parts[0]);
    var c :| c in kids && c.name == parts[0] && Present(c, parts[1..]);
    var j :| 0 <= j < |kids| && kids[j] == c;
    assert k == j;
    if |parts| > 1 {
      assert UniqueTree(kids[k]);
      InsertExisting(kids[k], parts[1..], file);
      assert kids[k := kids[k]] == kids;
    }
  }

  /**
   * The root after the loop: unique sibling names, tagged file items, and
   * every file with a path reachable along its segments.
   */
  lemma {:induction false} GrowInvariants(files: seq<WebStore.File>)
    ensures UniqueTree(Grow(files)) && Tagged(Grow(files), [])
    ensures Grow(files).name == "root" && Grow(files).kind == FolderItem && Grow(files).children.Listed?
    ensures forall f :: f in files && f.path != "" ==> Present(Grow(files), Split(f.path, '/'))
  {
    if |files| > 0 {
      var front := files[..|files| - 1];
      var f := files[|files| - 1];
      GrowInvariants(front);
      var root := Grow(front);
      assert forall g :: g in files ==> g in front || g == f;
      if f.path != "" {
        var parts := Split(f.path, '/');
        InsertUnique(root, parts, f);
        assert parts == [] + parts;
        InsertTagged(root, [], parts, f);
        InsertPresent(root, parts, f);
        forall g | g in front && g.path != ""
          ensures Present(Grow(files), Split(g.path, '/'))
        {
          InsertKeeps(root, parts, f, Split(g.path, '/'));
        }
      }
    }
  }

  /** A file whose path an earlier file already had adds no item. */
  lemma RepeatedPathAddsNothing(files: seq<WebStore.File>, g: WebStore.File, f: WebStore.File)
    requires g in files && f.path == g.path
    ensures Grow(files + [f]) == Grow(files)
  {
    assert (files + [f])[..|files|] == files;
    GrowInvariants(files);
    if f.path != "" {
      InsertExisting(Grow(files), Split(f.path, '/'), f);
    }
  }

  /** Files without a path leave the root empty. */
  lemma {:induction false} PathlessFilesAddNothing(files: seq<WebStore.File>)
    requires forall f :: f in files ==> f.path == ""
    ensures Grow(files) == EmptyRoot
  {
    if |files| > 0 {
      assert forall f :: f in files[..|files| - 1] ==> f in files;
      PathlessFilesAddNothing(files[..|files| - 1]);
    }
  }

  // ---------------------------------------------------------------- sorting

  /** The comparator of `sortChildren`: folders first, then by name. */
  predicate Le(a: Item, b: Item, before: (string, string) -> bool)
  {
    (a.kind == FolderItem && b.kind == FileItem) || (a.kind == b.kind && before(a.name, b.name))
  }

  /** `localeCompare(a, b) <= 0` is total and transitive. */
  ghost predicate TotalPreorder(before: (string, string) -> bool)
  {
    (forall a, b :: before(a, b) || before(b, a)) &&
    (forall a, b, c :: before(a, b) && before(b, c) ==> before(a, c))
  }

  predicate Sorted(items: seq<Item>, before: (string, string) -> bool)
  {
    forall i, j :: 0 <= i < j < |items| ==> Le(items[i], items[j], before)
  }

  /** `x` placed after the last element not above it. */
  function InsertSorted(items: seq<Item>, x: Item, before: (string, string) -> bool): (r: seq<Item>)
    ensures multiset(r) == multiset(items) + multiset{x}
  {
    if |items| == 0 then [x]
    else if Le(items[|items| - 1], x, before) then items + [x]
    else
      var front := items[..|items| - 1];
      assert items == front + [items[|items| - 1]];
      InsertSorted(front, x, before) + [items[|items| - 1]]
  }

  /** `items.sort(comparator)`. */
  function SortItems(items: seq<Item>, before: (string, string) -> bool): (r: seq<Item>)
    ensures multiset(r) == multiset(items)
  {
    if |items| == 0 then []
    else
      var front := items[..|items| - 1];
      assert items == front + [items[|items| - 1]];
      InsertSorted(SortItems(front, before), items[|items| - 1], before)
  }

  /** `sortChildren` applied below an item: every children list sorted, each child sorted in turn. */
  function SortTree(item: Item, before: (string, string) -> bool): (r: Item)
    ensures r.name == item.name && r.kind == item.kind && r.path == item.path && r.language == item.language
    ensures r.children.Listed? == item.children.Listed?
    decreases item
  {
    match item.children
    case Absent => item
    case Listed(kids) =>
      item.(children := Listed(SortItems(seq(|kids|, i requires 0 <= i < |kids| => SortTree(kids[i], before)), before)))
  }

  /** Every children list below `item` is sorted. */
  ghost predicate SortedTree(item: Item, before: (string, string) -> bool)
    decreases item
  {
    match item.children
    case Absent => true
    case Listed(kids) => Sorted(kids, before) && forall c :: c in kids ==> SortedTree(c, before)
  }

  /** In a sorted list no file item precedes a folder item. */
  lemma FoldersFirst(items: seq<Item>, before: (string, string) -> bool)
    requires Sorted(items, before)
    ensures forall i, j :: 0 <= i < j < |items| && items[i].kind == FileItem ==> items[j].kind == FileItem
  {
    forall i, j | 0 <= i < j < |items| && items[i].kind == FileItem
      ensures items[j].kind == FileItem
    {
      assert Le(items[i], items[j], before);
    }
  }

  lemma {:induction false} InsertSortedSorted(items: seq<Item>, x: Item, before: (string, string) -> bool)
    requires TotalPreorder(before) && Sorted(items, before)
    ensures Sorted(InsertSorted(items, x, before), before)
  {
    if |items| > 0 {
      var last := items[|items| - 1];
      var front := items[..|items| - 1];
      if Le(last, x, before) {
        assert forall i :: 0 <= i < |items| ==> Le(items[i], last, before) || i == |items| - 1;
      } else {
        assert Le(x, last, before);
        InsertSortedSorted(front, x, before);
        var r := InsertSorted(front, x, before);
        forall y | y in r
          ensures Le(y, last, before)
        {
          assert y in multiset(r);
          if y != x {
            assert y in front;
          }
        }
        assert forall i :: 0 <= i < |r| ==> r[i] in r;
      }
    }
  }

  /** The sort orders the list and keeps its items. */
  lemma {:induction false} SortItemsSorted(items: seq<Item>, before: (string, string) -> bool)
    requires TotalPreorder(before)
    ensures Sorted(SortItems(items, before), before)
  {
    if |items| > 0 {
      SortItemsSorted(items[..|items| - 1], before);
      InsertSortedSorted(SortItems(items[..|items| - 1], before), items[|items| - 1], before);
    }
  }

  lemma {:induction false} InsertSortedDistinct(items: seq<Item>, x: Item, before: (string, string) -> bool)
    requires Distinct(items) && forall c :: c in items ==> c.name != x.name
    ensures Distinct(InsertSorted(items, x, before))
  {
    if |items| == 0 {
    } else if Le(items[|items| - 1], x, before) {
      DistinctAppend(items, x);
    } else {
      var last := items[|items| - 1];
      var front := items[..|items| - 1];
      InsertSortedDistinct(front, x, before);
      var r := InsertSorted(front, x, before);
      forall y | y in r
        ensures y.name != last.name
      {
        InsertSortedFrom(front, x, before, y);
        if y != x {
          var j :| 0 <= j < |front| && front[j] == y;
          assert items[j] == y;
        }
      }
      DistinctAppend(r, last);
    }
  }

  /** Every item of the insertion's result is `x` or one of the list's. */
  lemma InsertSortedFrom(items: seq<Item>, x: Item, before: (string, string) -> bool, y: Item)
    requires y in InsertSorted(items, x, before)
    ensures y == x || y in items
  {
    assert y in multiset(InsertSorted(items, x, before));
  }

  /** A name new to a list of distinct names keeps them distinct when appended. */
  lemma DistinctAppend(items: seq<Item>, z: Item)
    requires Distinct(items) && forall c :: c in items ==> c.name != z.name
    ensures Distinct(items + [z])
  {
    assert forall i :: 0 <= i < |items| ==> items[i] in items;
  }

  lemma {:induction false} SortItemsDistinct(items: seq<Item>, before: (string, string) -> bool)
    requires Distinct(items)
    ensures Distinct(SortItems(items, before))
  {
    if |items| > 0 {
      var front := items[..|items| - 1];
      var last := items[|items| - 1];
      SortItemsDistinct(front, before);
      forall c | c in SortItems(front, before)
        ensures c.name != last.name
      {
        assert c in multiset(SortItems(front, before));
        var j :| 0 <= j < |front| && front[j] == c;
        assert items[j] == c;
      }
      InsertSortedDistinct(SortItems(front, before), last, before);
    }
  }

  /** An item of a sorted children list is the sorted form of one of the original children. */
  lemma SortedChild(kids: seq<Item>, before: (string, string) -> bool, y: Item)
    requires y in SortItems(seq(|kids|, i requires 0 <= i < |kids| => SortTree(kids[i], before)), before)
    ensures exists i :: 0 <= i < |kids| && y == SortTree(kids[i], before)
  {
    var mapped := seq(|kids|, i requires 0 <= i < |kids| => SortTree(kids[i], before));
    SameElements(SortItems(mapped, before), mapped, y);
    var i :| 0 <= i < |mapped| && mapped[i] == y;
    assert y == SortTree(kids[i], before);
  }

  /** Two lists with the same multiset have the same elements. */
  lemma SameElements<T>(a: seq<T>, b: seq<T>, y: T)
    requires multiset(a) == multiset(b) && y in a
    ensures y in b
  {
    assert y in multiset(a);
  }

  /** An item given a sorted list of sorted items is sorted below. */
  lemma SortedWithKids(item: Item, kids: seq<Item>, before: (string, string) -> bool)
    requires Sorted(kids, before) && forall c :: c in kids ==> SortedTree(c, before)
    ensures SortedTree(item.(children := Listed(kids)), before)
  {
  }

  lemma {:induction false} SortTreeSorted(item: Item, before: (string, string) -> bool)
    requires TotalPreorder(before)
    ensures SortedTree(SortTree(item, before), before)
    decreases item
  {
    match item.children
    case Absent =>
    case Listed(kids) =>
      forall i | 0 <= i < |kids|
        ensures SortedTree(SortTree(kids[i], before), before)
      {
        SortTreeSorted(kids[i], before);
      }
      SortTreeSortedStep(item, kids, before);
  }

  /** The step of `SortTreeSorted`: sorting a list of children that sort to sorted trees. */
  lemma SortTreeSortedStep(item: Item, kids: seq<Item>, before: (string, string) -> bool)
    requires TotalPreorder(before) && item.children == Listed(kids)
    requires forall i :: 0 <= i < |kids| ==> SortedTree(SortTree(kids[i], before), before)
    ensures SortedTree(SortTree(item, before), before)
  {
    var mapped := seq(|kids|, i requires 0 <= i < |kids| => SortTree(kids[i], before));
    SortItemsSorted(mapped, before);
    forall y | y in SortItems(mapped, before)
      ensures SortedTree(y, before)
    {
      SortedChild(kids, before, y);
    }
    SortedWithKids(item, SortItems(mapped, before), before);
  }

  lemma {:induction false} SortTreeUnique(item: Item, before: (string, string) -> bool)
    requires UniqueTree(item)
    ensures UniqueTree(SortTree(item, before))
    decreases item
  {
    match item.children
    case Absent =>
    case Listed(kids) =>
      var mapped := seq(|kids|, i requires 0 <= i < |kids| => SortTree(kids[i], before));
      assert Distinct(mapped);
      SortItemsDistinct(mapped, before);
      forall y | y in SortItems(mapped, before)
        ensures UniqueTree(y)
      {
        SortedChild(kids, before, y);
        var i :| 0 <= i < |kids| && y == SortTree(kids[i], before);
        assert kids[i] in kids;
        SortTreeUnique(kids[i], before);
      }
  }

  lemma {:induction false} SortTreeTagged(item: Item, at: seq<string>, before: (string, string) -> bool)
    requires Tagged(item, at)
    ensures Tagged(SortTree(item, before), at)
    decreases item
  {
    match item.children
    case Absent =>
    case Listed(kids) =>
      var mapped := seq(|kids|, i requires 0 <= i < |kids| => SortTree(kids[i], before));
      forall y | y in SortItems(mapped, before)
        ensures Tagged(y, at + [y.name])
      {
        SortedChild(kids, before, y);
        var i :| 0 <= i < |kids| && y == SortTree(kids[i], before);
        assert kids[i] in kids;
        SortTreeTagged(kids[i], at + [kids[i].name], before);
      }
  }

  /** Sorting moves items only within their list, so every path stays reachable. */
  lemma {:induction false} SortTreePresent(item: Item, q: seq<string>, before: (string, string) -> bool)
    requires Present(item, q)
    ensures Present(SortTree(item, before), q)
    decreases |q|
  {
    if |q| > 0 {
      var kids := Kids(item);
      var c :| c in kids && c.name == q[0] && Present(c, q[1..]);
      var i :| 0 <= i < |kids| && kids[i] == c;
      var mapped := seq(|kids|, i requires 0 <= i < |kids| => SortTree(kids[i], before));
      var y := SortTree(c, before);
      SortTreePresent(c, q[1..], before);
      assert mapped[i] == y;
      assert y in multiset(SortItems(mapped, before));
      assert y in Kids(SortTree(item, before));
    }
  }

  /** The value `buildFileTree` returns. */
  function FileTree(files: seq<WebStore.File>, before: (string, string) -> bool): seq<Item>
  {
    if |files| == 0 then [] else Kids(SortTree(Grow(files), before))
  }

  /**
   * What `buildFileTree` promises: nothing for no files or only pathless
   * ones; otherwise a sorted list with unique names at every level, file
   * items tagged with their own path, and every file with a path reachable
   * along its segments.
   */
  lemma FileTreeProperties(files: seq<WebStore.File>, before: (string, string) -> bool)
    requires TotalPreorder(before)
    ensures (forall f :: f in files ==> f.path == "") ==> FileTree(files, before) == []
    ensures Distinct(FileTree(files, before)) && Sorted(FileTree(files, before), before)
    ensures forall c :: c in FileTree(files, before) ==>
      UniqueTree(c) && SortedTree(c, before) && Tagged(c, [c.name])
    ensures forall f :: f in files && f.path != "" ==> PresentIn(FileTree(files, before), Split(f.path, '/'))
  {
    if |files| > 0 {
      var root := Grow(files);
      GrowInvariants(files);
      SortTreeUnique(root, before);
      SortTreeSorted(root, before);
      SortTreeTagged(root, [], before);
      var sorted := SortTree(root, before);
      assert forall c :: c in Kids(sorted) ==> [] + [c.name] == [c.name];
      forall f | f in files && f.path != ""
        ensures PresentIn(Kids(sorted), Split(f.path, '/'))
      {
        SortTreePresent(root, Split(f.path, '/'), before);
      }
      if forall f :: f in files ==> f.path == "" {
        PathlessFilesAddNothing(files);
        assert SortTree(EmptyRoot, before).children == Listed([]);
      }
    }
  }

  /** `buildFileTree`: the loop over the files, then the sort of the root's children. */
  method BuildFileTree(files: seq<WebStore.File>, before: (string, string) -> bool) returns (tree: seq<Item>)
    ensures tree == FileTree(files, before)
  {
    if |files| == 0 {
      return [];
    }
    var root := EmptyRoot;
    for k := 0 to |files|
      invariant root == Grow(files[..k])
    {
      assert files[..k + 1][..k] == files[..k];
      var file := files[k];
      if file.path == "" {
        continue;
      }
      var parts := Split(file.path, '/');
      root := Insert(root, parts, file);
    }
    assert files[..|files|] == files;
    root := SortTree(root, before);
    tree := Kids(root);
  }
}
