/** The navigation builder of scripts/mkdocs_generate_reference.py: the
    documented modules are listed and sorted, each gets a reference page, and
    the `Reference` entry of the mkdocs navigation is rebuilt as a tree of
    sections that follows the pages' directories. */
module ReferenceNav {
  import opened Wrappers
  import opened Strings

  // ---------------------------------------------------------------------------
  // The navigation tree

  /** One entry of an mkdocs `nav` list: a one-key mapping from a title to a
      page path or to a nested list, or a bare page path. */
  datatype NavItem = Entry(title: string, value: NavValue) | Bare(text: string)

  datatype NavValue = Page(path: string) | Section(items: seq<NavItem>)

  /** The ways building the navigation raises. */
  datatype NavError =
    | TitleNotFound(title: string)  // `ValueError` from `get_nav_item_by_title`
    | BareItemHit(text: string)     // `title in item` holds on a bare path, and `item[title]` raises `TypeError`
    | NotASection(title: string)    // a page path stands where a list is needed: `str` has no `append` or `clear`
    | EmptyPath                     // `path_parts[0]` on a path without parts

  /** `title in item`: a key test on a mapping, a substring test on a bare path. */
  predicate HasTitle(item: NavItem, title: string) {
    match item
    case Entry(t, _) => t == title
    case Bare(text) => Occurs(text, title)
  }

  /** The position of the first item answering `title in item`, or the length
      of the list when there is none. */
  function FirstTitled(items: seq<NavItem>, title: string): (k: nat)
    ensures k <= |items|
    ensures forall j :: 0 <= j < k ==> !HasTitle(items[j], title)
    ensures k < |items| ==> HasTitle(items[k], title)
  {
    if items == [] then 0
    else if HasTitle(items[0], title) then 0
    else 1 + FirstTitled(items[1..], title)
  }

  /** What `get_nav_item_by_title(items, title)` returns or raises. */
  function FindByTitle(items: seq<NavItem>, title: string): Result<NavValue, NavError> {
    var k := FirstTitled(items, title);
    if k == |items| then Failure(TitleNotFound(title))
    else match items[k]
      case Entry(_, v) => Success(v)
      case Bare(text) => Failure(BareItemHit(text))
  }

  /** `get_nav_item_by_title`: the items are scanned in order and the first one
      answering `title in item` decides. */
  method GetNavItemByTitle(items: seq<NavItem>, title: string) returns (r: Result<NavValue, NavError>)
    ensures r == FindByTitle(items, title)
  {
    var i := 0;
    while i < |items|
      invariant 0 <= i <= |items|
      invariant forall j :: 0 <= j < i ==> !HasTitle(items[j], title)
    {
      if HasTitle(items[i], title) {
        match items[i]
        case Entry(_, v) => return Success(v);
        case Bare(text) => return Failure(BareItemHit(text));
      }
      i := i + 1;
    }
    return Failure(TitleNotFound(title));
  }

  /** The title a found item carries: an entry found under `title` is titled
      `title`, and no earlier item answers to it. */
  lemma FoundEntryIsFirst(items: seq<NavItem>, title: string)
    requires FindByTitle(items, title).Success?
    ensures var k := FirstTitled(items, title);
      k < |items| && items[k] == Entry(title, FindByTitle(items, title).value) &&
      forall j :: 0 <= j < k ==> !HasTitle(items[j], title)
  {
  }

  /** A list in which no item answers to the title reports it missing. */
  lemma MissingTitleRaises(items: seq<NavItem>, title: string)
    requires forall j :: 0 <= j < |items| ==> !HasTitle(items[j], title)
    ensures FindByTitle(items, title) == Failure(TitleNotFound(title))
  {
  }

  // ---------------------------------------------------------------------------
  // Inserting one page

  /** The path of a reference page relative to the `docs` directory, from its
      parts relative to `docs/reference`. */
  function DocPath(parts: seq<string>): (r: string)
    ensures StartsWith(r, "reference/")
  {
    "reference/" + Join("/", parts)
  }

  /** `after` is `before` grown by insertions: every item keeps its place, an
      item may only change by its section growing the same way under the same
      title, and at most one item is appended. */
  predicate Extends(before: seq<NavItem>, after: seq<NavItem>)
    decreases before
  {
    |before| <= |after| <= |before| + 1 &&
    forall j :: 0 <= j < |before| ==> ItemExtends(before[j], after[j])
  }

  predicate ItemExtends(before: NavItem, after: NavItem)
    decreases before
  {
    before == after ||
    (before.Entry? && after.Entry? && before.title == after.title &&
     before.value.Section? && after.value.Section? && Extends(before.value.items, after.value.items))
  }

  /** The items a page path makes in an empty list: one new section per
      directory, each holding the next, and the page at the bottom. */
  function Chain(parts: seq<string>, path: string): (r: seq<NavItem>)
    requires parts != []
    ensures |r| == 1
    decreases |parts|
  {
    if |parts| == 1 then [Entry(RemoveSuffix(parts[0], ".md"), Page(path))]
    else [Entry(parts[0], Section(Chain(parts[1..], path)))]
  }

  /** The effect of one round of the loop of `add_nav_items`: walk down the
      sections named by the directory parts, reusing the first one with each
      title and appending a new empty one where none exists, then append the
      page under its file name without `.md`. */
  function InsertPath(items: seq<NavItem>, parts: seq<string>, path: string): (r: Result<seq<NavItem>, NavError>)
    ensures parts == [] ==> r == Failure(EmptyPath)
    ensures r.Success? && |parts| == 1 ==> r.value == items + [Entry(RemoveSuffix(parts[0], ".md"), Page(path))]
    ensures r.Success? && |parts| > 1 ==>
      var k := FirstTitled(items, parts[0]);
      |r.value| == (if k == |items| then |items| + 1 else |items|) &&
      (forall j :: 0 <= j < |items| && j != k ==> r.value[j] == items[j]) &&
      r.value[k].Entry? && r.value[k].title == parts[0] && r.value[k].value.Section?
    ensures r.Success? ==> Extends(items, r.value)
    ensures r.Success? && |parts| > 1 && FirstTitled(items, parts[0]) == |items| ==>
      r.value == items + Chain(parts, path)
    ensures items == [] && parts != [] ==> r == Success(Chain(parts, path))
    decreases |parts|
  {
    if parts == [] then Failure(EmptyPath)
    else if |parts| == 1 then
      var leaf := [Entry(RemoveSuffix(parts[0], ".md"), Page(path))];
      assert items == [] ==> items + leaf == Chain(parts, path);
      Success(items + leaf)
    else
      var k := FirstTitled(items, parts[0]);
      if k == |items| then
        var sub :- InsertPath([], parts[1..], path);
        assert [Entry(parts[0], Section(sub))] == Chain(parts, path);
        assert items == [] ==> items + Chain(parts, path) == Chain(parts, path);
        Success(items + [Entry(parts[0], Section(sub))])
      else
        match items[k]
        case Bare(text) => Failure(BareItemHit(text))
        case Entry(_, Page(_)) => Failure(NotASection(parts[0]))
        case Entry(t, Section(sub)) =>
          var sub' :- InsertPath(sub, parts[1..], path);
          Success(items[k := Entry(t, Section(sub'))])
  }

  /** The list reached by following the titles in `dirs` from `items`, the way
      `get_nav_item_by_title` follows them. */
  function Resolve(items: seq<NavItem>, dirs: seq<string>): Option<seq<NavItem>>
    decreases |dirs|
  {
    if dirs == [] then Some(items)
    else match FindByTitle(items, dirs[0])
      case Success(Section(sub)) => Resolve(sub, dirs[1..])
      case _ => None
  }

  /** After an insertion, looking the directories up again leads to the list
      whose last item is the new page. */
  lemma {:induction false} InsertedPageIsFound(items: seq<NavItem>, parts: seq<string>, path: string)
    requires InsertPath(items, parts, path).Success?
    ensures var r := InsertPath(items, parts, path).value;
      var found := Resolve(r, parts[..|parts| - 1]);
      found.Some? && found.value != [] &&
      found.value[|found.value| - 1] == Entry(RemoveSuffix(parts[|parts| - 1], ".md"), Page(path))
    decreases |parts|
  {
    var r := InsertPath(items, parts, path).value;
    if |parts| == 1 {
      assert parts[..0] == [];
    } else {
      var k := FirstTitled(items, parts[0]);
      var dirs := parts[..|parts| - 1];
      assert dirs[0] == parts[0] && dirs[1..] == parts[1..][..|parts[1..]| - 1];
      var sub := if k == |items| then [] else items[k].value.items;
      var sub' := InsertPath(sub, parts[1..], path).value;
      if k == |items| {
        assert r == items + [Entry(parts[0], Section(sub'))];
      } else {
        assert r == items[k := Entry(parts[0], Section(sub'))];
      }
      SameFirstTitled(items, r, parts[0], k);
      assert FindByTitle(r, parts[0]) == Success(Section(sub'));
      assert Resolve(r, dirs) == Resolve(sub', dirs[1..]);
      InsertedPageIsFound(sub, parts[1..], path);
    }
  }

  /** When the items before `k` are kept and the item at `k` answers to the
      title, the first item answering to it is still at `k`. */
  lemma SameFirstTitled(items: seq<NavItem>, r: seq<NavItem>, title: string, k: nat)
    requires k == FirstTitled(items, title) && k < |r|
    requires forall j :: 0 <= j < k ==> r[j] == items[j]
    requires HasTitle(r[k], title)
    ensures FirstTitled(r, title) == k
  {
  }

  // ---------------------------------------------------------------------------
  // Counting pages

  /** The number of pages under a list. */
  function Leaves(items: seq<NavItem>): nat
    decreases items
  {
    if items == [] then 0 else ItemLeaves(items[0]) + Leaves(items[1..])
  }

  function ItemLeaves(item: NavItem): nat
    decreases item
  {
    match item
    case Entry(_, Page(_)) => 1
    case Entry(_, Section(sub)) => Leaves(sub)
    case Bare(_) => 1
  }

  lemma {:induction false} LeavesAppend(items: seq<NavItem>, x: NavItem)
    ensures Leaves(items + [x]) == Leaves(items) + ItemLeaves(x)
  {
    if items != [] {
      assert (items + [x])[1..] == items[1..] + [x];
      LeavesAppend(items[1..], x);
    }
  }

  lemma {:induction false} LeavesUpdate(items: seq<NavItem>, k: nat, x: NavItem)
    requires k < |items|
    ensures Leaves(items[k := x]) + ItemLeaves(items[k]) == Leaves(items) + ItemLeaves(x)
  {
    if k == 0 {
      assert items[k := x][1..] == items[1..];
    } else {
      assert items[k := x][1..] == items[1..][k - 1 := x];
      LeavesUpdate(items[1..], k - 1, x);
    }
  }

  /** Each insertion adds exactly one page to the tree. */
  lemma {:induction false} InsertAddsOnePage(items: seq<NavItem>, parts: seq<string>, path: string)
    requires InsertPath(items, parts, path).Success?
    ensures Leaves(InsertPath(items, parts, path).value) == Leaves(items) + 1
    decreases |parts|
  {
    var r := InsertPath(items, parts, path).value;
    if |parts| == 1 {
      LeavesAppend(items, Entry(RemoveSuffix(parts[0], ".md"), Page(path)));
    } else {
      var k := FirstTitled(items, parts[0]);
      if k == |items| {
        InsertAddsOnePage([], parts[1..], path);
        var sub := InsertPath([], parts[1..], path).value;
        LeavesAppend(items, Entry(parts[0], Section(sub)));
      } else {
        var sub := items[k].value.items;
        InsertAddsOnePage(sub, parts[1..], path);
        var sub' := InsertPath(sub, parts[1..], path).value;
        LeavesUpdate(items, k, Entry(items[k].title, Section(sub')));
      }
    }
  }

  // ---------------------------------------------------------------------------
  // Rebuilding the Reference section

  /** The Reference section after the first `|docs|` rounds of the loop,
      starting from the cleared list. */
  function BuildReference(docs: seq<seq<string>>): Result<seq<NavItem>, NavError>
    decreases |docs|
  {
    if docs == [] then Success([])
    else
      var before :- BuildReference(docs[..|docs| - 1]);
      var last := docs[|docs| - 1];
      InsertPath(before, last, DocPath(last))
  }

  /** The rebuilt section holds one page per document. */
  lemma {:induction false} OnePagePerDocument(docs: seq<seq<string>>)
    requires BuildReference(docs).Success?
    ensures Leaves(BuildReference(docs).value) == |docs|
    decreases |docs|
  {
    if docs != [] {
      OnePagePerDocument(docs[..|docs| - 1]);
      var before := BuildReference(docs[..|docs| - 1]).value;
      var last := docs[|docs| - 1];
      InsertAddsOnePage(before, last, DocPath(last));
    }
  }

  /** `add_nav_items`: the navigation with the value of its first `Reference`
      entry cleared and refilled from the documents, in order. */
  method AddNavItems(nav: seq<NavItem>, docs: seq<seq<string>>) returns (r: Result<seq<NavItem>, NavError>)
    ensures FindByTitle(nav, "Reference").Failure? ==> r == Failure(FindByTitle(nav, "Reference").error)
    ensures FindByTitle(nav, "Reference").Success? && FindByTitle(nav, "Reference").value.Page? ==>
      r == Failure(NotASection("Reference"))
    ensures r.Success? <==>
      FindByTitle(nav, "Reference").Success? && FindByTitle(nav, "Reference").value.Section? &&
      BuildReference(docs).Success?
    ensures r.Success? ==>
      var k := FirstTitled(nav, "Reference");
      k < |nav| && |r.value| == |nav| &&
      r.value[k] == Entry("Reference", Section(BuildReference(docs).value)) &&
      forall j :: 0 <= j < |nav| && j != k ==> r.value[j] == nav[j]
  {
    var found := GetNavItemByTitle(nav, "Reference");
    if found.Failure? {
      return Failure(found.error);
    }
    if found.value.Page? {
      return Failure(NotASection("Reference"));
    }
    var reference: seq<NavItem> := [];
    for i := 0 to |docs|
      invariant BuildReference(docs[..i]) == Success(reference)
    {
      assert docs[..i + 1][..i] == docs[..i];
      var next := InsertPath(reference, docs[i], DocPath(docs[i]));
      if next.Failure? {
        FailureStaysFailure(docs, i + 1);
        return Failure(next.error);
      }
      reference := next.value;
    }
    assert docs[..|docs|] == docs;
    var k := FirstTitled(nav, "Reference");
    return Success(nav[k := Entry("Reference", Section(reference))]);
  }

  /** Once a round fails, building the whole section fails. */
  lemma {:induction false} FailureStaysFailure(docs: seq<seq<string>>, i: nat)
    requires i <= |docs| && BuildReference(docs[..i]).Failure?
    ensures BuildReference(docs).Failure?
    decreases |docs| - i
  {
    if i < |docs| {
      assert docs[..i + 1][..i] == docs[..i];
      FailureStaysFailure(docs, i + 1);
    } else {
      assert docs[..i] == docs;
    }
  }

  // ---------------------------------------------------------------------------
  // Documented modules and their pages

  /** Python's `Path.stem`: the file name without its last suffix, where a
      suffix starts at the last dot that is neither the first nor the last
      character. */
  function Stem(name: string): (r: string)
    ensures |r| <= |name| && r == name[..|r|]
    ensures r != [] || name == []
  {
    LastDotStem(name, |name|)
  }

  /** The stem found by looking for the last dot before position `i`. */
  function LastDotStem(name: string, i: nat): (r: string)
    requires i <= |name|
    ensures |r| <= |name| && r == name[..|r|]
    ensures r != [] || name == []
    decreases i
  {
    if i <= 1 then name
    else if name[i - 1] == '.' then (if i == |name| then name else name[..i - 1])
    else LastDotStem(name, i - 1)
  }

  /** A module is hidden when its stem starts with an underscore, which
      happens exactly when its file name does. */
  lemma HiddenByFileName(name: string)
    ensures StartsWith(Stem(name), "_") <==> StartsWith(name, "_")
  {
  }

  predicate Documented(path: seq<string>) {
    path != [] && !StartsWith(Stem(path[|path| - 1]), "_")
  }

  /** `path.with_suffix(suffix)` on the parts of a path. */
  function WithSuffix(path: seq<string>, suffix: string): (r: seq<string>)
    requires path != []
    ensures |r| == |path| && r[..|r| - 1] == path[..|path| - 1]
    ensures r[|r| - 1] == Stem(path[|path| - 1]) + suffix
  {
    path[..|path| - 1] + [Stem(path[|path| - 1]) + suffix]
  }

  /** The dotted module name of a file: its parts with the suffix dropped,
      joined by dots. */
  function ModuleName(path: seq<string>): string
    requires path != []
  {
    Join(".", WithSuffix(path, ""))
  }

  /** The page of a module carries the module's stem as its title. */
  lemma PageTitleIsStem(path: seq<string>)
    requires path != []
    ensures var doc := WithSuffix(path, ".md");
      RemoveSuffix(doc[|doc| - 1], ".md") == Stem(path[|path| - 1])
  {
    var doc := WithSuffix(path, ".md");
    var name := Stem(path[|path| - 1]) + ".md";
    assert doc[|doc| - 1] == name;
    assert name[|name| - 3..] == ".md";
  }

  // Ordering of paths, as Python compares the parts of two paths

  /** `a <= b` on strings: code point by code point, a prefix first. */
  predicate StrLe(a: string, b: string)
    decreases |a|
  {
    a == [] || (b != [] && (a[0] < b[0] || (a[0] == b[0] && StrLe(a[1..], b[1..]))))
  }

  lemma {:induction false} StrLeTotal(a: string, b: string)
    ensures StrLe(a, b) || StrLe(b, a)
    decreases |a|
  {
    if a != [] && b != [] && a[0] == b[0] {
      StrLeTotal(a[1..], b[1..]);
    }
  }

  lemma {:induction false} StrLeTrans(a: string, b: string, c: string)
    requires StrLe(a, b) && StrLe(b, c)
    ensures StrLe(a, c)
    decreases |a|
  {
    if a != [] && a[0] == b[0] && b[0] == c[0] {
      StrLeTrans(a[1..], b[1..], c[1..]);
    }
  }

  lemma {:induction false} StrLeAntisym(a: string, b: string)
    requires StrLe(a, b) && StrLe(b, a)
    ensures a == b
    decreases |a|
  {
    if a != [] {
      StrLeAntisym(a[1..], b[1..]);
      assert a == [a[0]] + a[1..] && b == [b[0]] + b[1..];
    }
  }

  /** `a <= b` on paths: part by part, a prefix first. */
  predicate PathLe(a: seq<string>, b: seq<string>)
    decreases |a|
  {
    a == [] || (b != [] && (if a[0] == b[0] then PathLe(a[1..], b[1..]) else StrLe(a[0], b[0])))
  }

  lemma {:induction false} PathLeTotal(a: seq<string>, b: seq<string>)
    ensures PathLe(a, b) || PathLe(b, a)
    decreases |a|
  {
    if a != [] && b != [] {
      if a[0] == b[0] {
        PathLeTotal(a[1..], b[1..]);
      } else {
        StrLeTotal(a[0], b[0]);
      }
    }
  }

  lemma {:induction false} PathLeTrans(a: seq<string>, b: seq<string>, c: seq<string>)
    requires PathLe(a, b) && PathLe(b, c)
    ensures PathLe(a, c)
    decreases |a|
  {
    if a != [] {
      if a[0] == b[0] && b[0] == c[0] {
        PathLeTrans(a[1..], b[1..], c[1..]);
      } else if a[0] == b[0] {
        assert StrLe(b[0], c[0]);
      } else if b[0] == c[0] {
        assert StrLe(a[0], b[0]);
      } else {
        StrLeTrans(a[0], b[0], c[0]);
        if a[0] == c[0] {
          StrLeAntisym(a[0], b[0]);
        }
      }
    }
  }

  predicate Sorted(s: seq<seq<string>>) {
    forall i, j :: 0 <= i < j < |s| ==> PathLe(s[i], s[j])
  }

  /** A sorted list stays sorted with an element in front that precedes all
      of it. */
  lemma SortedCons(h: seq<string>, t: seq<seq<string>>)
    requires Sorted(t)
    requires forall y :: y in t ==> PathLe(h, y)
    ensures Sorted([h] + t)
  {
    var s := [h] + t;
    forall i, j | 0 <= i < j < |s| ensures PathLe(s[i], s[j]) {
      if i > 0 {
        assert s[i] == t[i - 1] && s[j] == t[j - 1];
      } else {
        assert s[j] in t;
      }
    }
  }

  /** `x` put into a sorted list before the first element it does not follow. */
  function Insert(x: seq<string>, s: seq<seq<string>>): (r: seq<seq<string>>)
    requires Sorted(s)
    ensures Sorted(r)
    ensures multiset(r) == multiset(s) + multiset{x}
  {
    if s == [] then [x]
    else
      assert s == [s[0]] + s[1..];
      if PathLe(x, s[0]) then
        forall y | y in s ensures PathLe(x, y) {
          if y != s[0] { PathLeTrans(x, s[0], y); }
        }
        SortedCons(x, s);
        [x] + s
      else
        PathLeTotal(x, s[0]);
        var rest := Insert(x, s[1..]);
        forall y | y in rest ensures PathLe(s[0], y) {
          assert y in multiset(rest);
        }
        SortedCons(s[0], rest);
        [s[0]] + rest
  }

  /** `sorted(paths)`. */
  function Sort(paths: seq<seq<string>>): (r: seq<seq<string>>)
    ensures Sorted(r)
    ensures multiset(r) == multiset(paths)
  {
    if paths == [] then []
    else
      assert paths == paths[..|paths| - 1] + [paths[|paths| - 1]];
      Insert(paths[|paths| - 1], Sort(paths[..|paths| - 1]))
  }

  /** The paths of `s` whose module is documented, in their order. */
  function FilterDocumented(s: seq<seq<string>>): (r: seq<seq<string>>)
    ensures forall x :: multiset(r)[x] == if Documented(x) then multiset(s)[x] else 0
    ensures forall i :: 0 <= i < |r| ==> Documented(r[i])
  {
    if s == [] then []
    else
      assert s == [s[0]] + s[1..];
      var rest := FilterDocumented(s[1..]);
      if Documented(s[0]) then [s[0]] + rest else rest
  }

  /** Filtering keeps the order. */
  lemma {:induction false} FilterKeepsSorted(s: seq<seq<string>>)
    requires Sorted(s)
    ensures Sorted(FilterDocumented(s))
  {
    if s != [] {
      FilterKeepsSorted(s[1..]);
      var rest := FilterDocumented(s[1..]);
      if Documented(s[0]) {
        forall y | y in rest ensures PathLe(s[0], y) {
          assert y in multiset(rest);
          assert y in multiset(s[1..]);
          var j :| 0 <= j < |s[1..]| && s[1..][j] == y;
          assert s[j + 1] == y;
        }
        SortedCons(s[0], rest);
      }
    }
  }

  /** `get_documented_modules()` on the module files found, as paths relative
      to the package: sorted, and without the hidden ones. */
  function DocumentedModules(paths: seq<seq<string>>): (r: seq<seq<string>>)
    ensures forall i :: 0 <= i < |r| ==> Documented(r[i])
  {
    FilterDocumented(Sort(paths))
  }

  /** The documented modules come sorted, and each documented path found
      occurs among them as often as it was found, and no other. */
  lemma DocumentedModulesSortedAndComplete(paths: seq<seq<string>>)
    ensures Sorted(DocumentedModules(paths))
    ensures forall x :: multiset(DocumentedModules(paths))[x] == if Documented(x) then multiset(paths)[x] else 0
  {
    FilterKeepsSorted(Sort(paths));
  }

  /** The loop of `main`: every documented module gets its page path, with
      `.md` for its suffix, and its dotted module name, in order. */
  method ModulePages(documented: seq<seq<string>>) returns (modules: seq<string>, docs: seq<seq<string>>)
    requires forall i :: 0 <= i < |documented| ==> documented[i] != []
    ensures |modules| == |docs| == |documented|
    ensures forall i :: 0 <= i < |docs| ==>
      docs[i] == WithSuffix(documented[i], ".md") && modules[i] == ModuleName(documented[i])
  {
    modules, docs := [], [];
    for i := 0 to |documented|
      invariant |modules| == |docs| == i
      invariant forall j :: 0 <= j < i ==>
        docs[j] == WithSuffix(documented[j], ".md") && modules[j] == ModuleName(documented[j])
    {
      docs := docs + [WithSuffix(documented[i], ".md")];
      modules := modules + [ModuleName(documented[i])];
    }
  }

  /** `main`: the pages of the documented modules are added to the
      navigation in the order of the modules, one page each. */
  method GenerateReference(paths: seq<seq<string>>, nav: seq<NavItem>)
    returns (modules: seq<string>, docs: seq<seq<string>>, r: Result<seq<NavItem>, NavError>)
    ensures |modules| == |docs| == |DocumentedModules(paths)|
    ensures forall i :: 0 <= i < |docs| ==>
      docs[i] == WithSuffix(DocumentedModules(paths)[i], ".md") &&
      modules[i] == ModuleName(DocumentedModules(paths)[i])
    ensures r.Success? <==>
      FindByTitle(nav, "Reference").Success? && FindByTitle(nav, "Reference").value.Section? &&
      BuildReference(docs).Success?
    ensures r.Success? ==>
      var k := FirstTitled(nav, "Reference");
      k < |nav| && |r.value| == |nav| &&
      r.value[k] == Entry("Reference", Section(BuildReference(docs).value)) &&
      Leaves(BuildReference(docs).value) == |docs| &&
      forall j :: 0 <= j < |nav| && j != k ==> r.value[j] == nav[j]
  {
    var documented := DocumentedModules(paths);
    modules, docs := ModulePages(documented);
    r := AddNavItems(nav, docs);
    if r.Success? {
      OnePagePerDocument(docs);
    }
  }
}
