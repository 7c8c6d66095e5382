/** DOM tree search and pruning (`filter_recurse_all`, `filter_recurse`,
    `remove_from_tree` in zendriver_flare_bypasser/core/util.py).

    A DOM node is a value: its opaque backend id, its children, and its
    `shadow_roots` field, which is either absent or a (possibly empty) list. The
    search functions take the predicate as a function parameter. */
module DomTree {
  import opened Wrappers

  /** `Node.shadow_roots`: `None`, or the list of shadow-root nodes. */
  datatype ShadowRoots = NoShadowRoots | ShadowRoots(roots: seq<Node>)

  datatype Node = Node(backendId: int, children: seq<Node>, shadowRoots: ShadowRoots)

  /** `filter_recurse_all` indexes `shadow_roots[0]` whenever the field is not
      `None`, so an empty list raises `IndexError`. */
  datatype SearchError = EmptyShadowRootList

  // ---------------------------------------------------------------------------
  // Sizes (used to show that a search never reaches the node it starts from)

  function Size(n: Node): (r: nat)
    ensures r >= 1
  {
    1 + SizeAll(n.children) + ShadowSize(n.shadowRoots)
  }

  function ShadowSize(s: ShadowRoots): nat {
    match s
    case NoShadowRoots => 0
    case ShadowRoots(roots) => SizeAll(roots)
  }

  function SizeAll(ns: seq<Node>): nat
    decreases ns
  {
    if ns == [] then 0
    else 1 + SizeAll(ns[0].children) + ShadowSize(ns[0].shadowRoots) + SizeAll(ns[1..])
  }

  // ---------------------------------------------------------------------------
  // Specification of filter_recurse_all

  /** Appends `front` to the nodes of a successful search; errors pass through. */
  function Prepend(front: seq<Node>, r: Result<seq<Node>, SearchError>): Result<seq<Node>, SearchError> {
    match r
    case Success(v) => Success(front + v)
    case Failure(e) => Failure(e)
  }

  lemma PrependNothing(r: Result<seq<Node>, SearchError>)
    ensures Prepend([], r) == r
  {
    if r.Success? {
      assert [] + r.value == r.value;
    }
  }

  /** One child's contribution followed by the rest, with the first raised
      error (shadow root, then descendants, then later siblings) winning. */
  function Combine(self: seq<Node>, inShadow: Result<seq<Node>, SearchError>,
                   below: Result<seq<Node>, SearchError>, rest: Result<seq<Node>, SearchError>): Result<seq<Node>, SearchError>
  {
    if inShadow.Failure? then inShadow
    else if below.Failure? then below
    else Prepend(self + inShadow.value + below.value, rest)
  }

  /** What the loop of `filter_recurse_all` collects from the children
      `cs[i..]`: for each child in turn, the child if it matches, then the
      matches inside its first shadow root (an empty shadow-root list raises),
      then the matches among its own descendants. */
  function SearchFrom(cs: seq<Node>, i: nat, p: Node -> bool): Result<seq<Node>, SearchError>
    requires i <= |cs|
    decreases cs, |cs| - i
  {
    if i == |cs| then Success([])
    else
      Combine(
        if p(cs[i]) then [cs[i]] else [],
        match cs[i].shadowRoots
        case NoShadowRoots => Success([])
        case ShadowRoots(roots) =>
          if roots == [] then Failure(EmptyShadowRootList) else SearchFrom(roots[0].children, 0, p),
        SearchFrom(cs[i].children, 0, p),
        SearchFrom(cs, i + 1, p))
  }

  /** The result of `filter_recurse_all(doc, p)`. */
  function SearchAll(doc: Node, p: Node -> bool): Result<seq<Node>, SearchError> {
    SearchFrom(doc.children, 0, p)
  }

  /** Independent reference: every node the search tests among `cs[i..]`
      and below, in the order it tests them (pre-order, entering only the
      first shadow root of a node). */
  function VisitFrom(cs: seq<Node>, i: nat): Result<seq<Node>, SearchError>
    requires i <= |cs|
    decreases cs, |cs| - i
  {
    if i == |cs| then Success([])
    else
      Combine(
        [cs[i]],
        match cs[i].shadowRoots
        case NoShadowRoots => Success([])
        case ShadowRoots(roots) =>
          if roots == [] then Failure(EmptyShadowRootList) else VisitFrom(roots[0].children, 0),
        VisitFrom(cs[i].children, 0),
        VisitFrom(cs, i + 1))
  }

  /** The nodes of `v` for which `p` holds, in order. */
  function Filter(v: seq<Node>, p: Node -> bool): seq<Node> {
    if v == [] then [] else (if p(v[0]) then [v[0]] else []) + Filter(v[1..], p)
  }

  /** `Filter` keeps exactly the elements satisfying the predicate. */
  lemma {:induction false} FilterKeepsExactlyMatches(v: seq<Node>, p: Node -> bool)
    ensures forall x :: x in Filter(v, p) <==> x in v && p(x)
  {
    if v != [] {
      FilterKeepsExactlyMatches(v[1..], p);
      assert v == [v[0]] + v[1..];
    }
  }

  lemma {:induction false} FilterAppend(a: seq<Node>, b: seq<Node>, p: Node -> bool)
    ensures Filter(a + b, p) == Filter(a, p) + Filter(b, p)
  {
    if a == [] {
      assert a + b == b;
    } else {
      assert (a + b)[0] == a[0];
      assert (a + b)[1..] == a[1..] + b;
      FilterAppend(a[1..], b, p);
    }
  }

  /** Filters a successful visit; errors pass through. */
  function FilterResult(r: Result<seq<Node>, SearchError>, p: Node -> bool): Result<seq<Node>, SearchError> {
    match r
    case Success(v) => Success(Filter(v, p))
    case Failure(e) => Failure(e)
  }

  lemma FilterCombine(c: Node, a: Result<seq<Node>, SearchError>, b: Result<seq<Node>, SearchError>,
                      rest: Result<seq<Node>, SearchError>, p: Node -> bool)
    ensures FilterResult(Combine([c], a, b, rest), p)
         == Combine(if p(c) then [c] else [], FilterResult(a, p), FilterResult(b, p), FilterResult(rest, p))
  {
    if a.Success? && b.Success? && rest.Success? {
      FilterAppend([c] + a.value + b.value, rest.value, p);
      FilterAppend([c] + a.value, b.value, p);
      FilterAppend([c], a.value, p);
      assert [c][1..] == [];
      assert Filter([c], p) == (if p(c) then [c] else []) + Filter([], p);
    }
  }

  /** The search returns exactly the visited nodes that satisfy the
      predicate, in visiting order, and fails exactly when the visit does. */
  lemma {:induction false} SearchIsFilteredVisit(cs: seq<Node>, i: nat, p: Node -> bool)
    requires i <= |cs|
    ensures SearchFrom(cs, i, p) == FilterResult(VisitFrom(cs, i), p)
    decreases cs, |cs| - i
  {
    if i < |cs| {
      var c := cs[i];
      match c.shadowRoots {
        case NoShadowRoots =>
        case ShadowRoots(roots) =>
          if roots != [] { SearchIsFilteredVisit(roots[0].children, 0, p); }
      }
      SearchIsFilteredVisit(c.children, 0, p);
      SearchIsFilteredVisit(cs, i + 1, p);
      FilterCombine(c,
        match c.shadowRoots
        case NoShadowRoots => Success([])
        case ShadowRoots(roots) =>
          if roots == [] then Failure(EmptyShadowRootList) else VisitFrom(roots[0].children, 0),
        VisitFrom(c.children, 0), VisitFrom(cs, i + 1), p);
    }
  }

  /** Every node the search tests among `cs[i..]` is no larger than those
      children together; in particular a search never tests its own root. */
  lemma {:induction false} VisitedAreSmaller(cs: seq<Node>, i: nat)
    requires i <= |cs|
    ensures VisitFrom(cs, i).Success? ==> forall x :: x in VisitFrom(cs, i).value ==> Size(x) <= SizeAll(cs[i..])
    decreases cs, |cs| - i
  {
    if i < |cs| {
      var c := cs[i];
      assert cs[i..][0] == c && cs[i..][1..] == cs[i + 1..];
      match c.shadowRoots {
        case NoShadowRoots =>
        case ShadowRoots(roots) =>
          if roots != [] {
            VisitedAreSmaller(roots[0].children, 0);
            assert roots[0].children[0..] == roots[0].children;
            SizeAllHead(roots);
          }
      }
      VisitedAreSmaller(c.children, 0);
      assert c.children[0..] == c.children;
      VisitedAreSmaller(cs, i + 1);
    }
  }

  lemma SizeAllHead(ns: seq<Node>)
    requires ns != []
    ensures SizeAll(ns[0].children) < SizeAll(ns)
  {
  }

  /** `filter_recurse_all(doc, p)` returns only nodes satisfying `p`, every
      visited node that satisfies `p`, and never `doc` itself. */
  lemma FilterRecurseAllSound(doc: Node, p: Node -> bool)
    ensures SearchAll(doc, p).Success? ==>
      var r := SearchAll(doc, p).value;
      (forall x :: x in r ==> p(x) && x != doc) &&
      VisitFrom(doc.children, 0).Success? &&
      (forall x :: x in VisitFrom(doc.children, 0).value && p(x) ==> x in r)
  {
    SearchIsFilteredVisit(doc.children, 0, p);
    VisitedAreSmaller(doc.children, 0);
    assert doc.children[0..] == doc.children;
    if VisitFrom(doc.children, 0).Success? {
      FilterKeepsExactlyMatches(VisitFrom(doc.children, 0).value, p);
    }
  }

  // ---------------------------------------------------------------------------
  // Only the first shadow root is searched

  /** The node with every shadow-root list cut down to its first element. */
  function Truncate(n: Node): Node {
    Node(n.backendId, TruncateAll(n.children), TruncateShadow(n.shadowRoots))
  }

  function TruncateShadow(s: ShadowRoots): ShadowRoots {
    match s
    case NoShadowRoots => NoShadowRoots
    case ShadowRoots(roots) =>
      if roots == [] then ShadowRoots([])
      else ShadowRoots([Node(roots[0].backendId, TruncateAll(roots[0].children), TruncateShadow(roots[0].shadowRoots))])
  }

  function TruncateAll(ns: seq<Node>): (r: seq<Node>)
    ensures |r| == |ns|
    ensures forall k :: 0 <= k < |ns| ==> r[k] == Truncate(ns[k])
    decreases ns
  {
    if ns == [] then []
    else
      var r := [Node(ns[0].backendId, TruncateAll(ns[0].children), TruncateShadow(ns[0].shadowRoots))] + TruncateAll(ns[1..]);
      assert forall k :: 1 <= k < |ns| ==> r[k] == TruncateAll(ns[1..])[k - 1] && ns[k] == ns[1..][k - 1];
      r
  }

  lemma {:induction false} TruncateAllAppend(a: seq<Node>, b: seq<Node>)
    ensures TruncateAll(a + b) == TruncateAll(a) + TruncateAll(b)
  {
    assert forall k :: 0 <= k < |a + b| ==> (a + b)[k] == if k < |a| then a[k] else b[k - |a|];
  }

  /** Truncates the nodes of a successful visit; errors pass through. */
  function TruncateResult(r: Result<seq<Node>, SearchError>): Result<seq<Node>, SearchError> {
    match r
    case Success(v) => Success(TruncateAll(v))
    case Failure(e) => Failure(e)
  }

  lemma TruncateCombine(c: Node, a: Result<seq<Node>, SearchError>, b: Result<seq<Node>, SearchError>,
                        rest: Result<seq<Node>, SearchError>)
    ensures TruncateResult(Combine([c], a, b, rest))
         == Combine([Truncate(c)], TruncateResult(a), TruncateResult(b), TruncateResult(rest))
  {
    if a.Success? && b.Success? && rest.Success? {
      TruncateAllAppend([c] + a.value + b.value, rest.value);
      TruncateAllAppend([c] + a.value, b.value);
      TruncateAllAppend([c], a.value);
    }
  }

  /** Shadow roots after the first are never entered: the search over a tree
      and over its truncation test corresponding nodes, in the same order, and
      fail together. */
  lemma {:induction false} OnlyFirstShadowRootVisited(cs: seq<Node>, i: nat)
    requires i <= |cs|
    ensures VisitFrom(TruncateAll(cs), i) == TruncateResult(VisitFrom(cs, i))
    decreases cs, |cs| - i
  {
    if i < |cs| {
      var c := cs[i];
      assert TruncateAll(cs)[i] == Truncate(c);
      match c.shadowRoots {
        case NoShadowRoots =>
        case ShadowRoots(roots) =>
          if roots != [] {
            OnlyFirstShadowRootVisited(roots[0].children, 0);
          }
      }
      OnlyFirstShadowRootVisited(c.children, 0);
      OnlyFirstShadowRootVisited(cs, i + 1);
      TruncateCombine(c,
        match c.shadowRoots
        case NoShadowRoots => Success([])
        case ShadowRoots(roots) =>
          if roots == [] then Failure(EmptyShadowRootList) else VisitFrom(roots[0].children, 0),
        VisitFrom(c.children, 0), VisitFrom(cs, i + 1));
    }
  }

  // ---------------------------------------------------------------------------
  // filter_recurse_all

  /** The matches inside a child's first shadow root, as `SearchFrom`
      computes them. */
  function ShadowSearch(c: Node, p: Node -> bool): Result<seq<Node>, SearchError> {
    match c.shadowRoots
    case NoShadowRoots => Success([])
    case ShadowRoots(roots) =>
      if roots == [] then Failure(EmptyShadowRootList) else SearchFrom(roots[0].children, 0, p)
  }

  lemma PrependCombine(out: seq<Node>, self: seq<Node>, inShadow: seq<Node>, below: seq<Node>,
                       rest: Result<seq<Node>, SearchError>)
    ensures Prepend(out, Combine(self, Success(inShadow), Success(below), rest))
         == Prepend(out + self + inShadow + below, rest)
  {
    if rest.Success? {
      assert out + (self + inShadow + below + rest.value) == out + self + inShadow + below + rest.value;
    }
  }

  lemma SearchFromStep(cs: seq<Node>, i: nat, p: Node -> bool)
    requires i < |cs|
    ensures SearchFrom(cs, i, p) == Combine(if p(cs[i]) then [cs[i]] else [], ShadowSearch(cs[i], p),
                                            SearchFrom(cs[i].children, 0, p), SearchFrom(cs, i + 1, p))
  {
  }

  /** `filter_recurse_all(doc, predicate)`: a loop over `doc.children` that
      accumulates matches in `out`; an exception raised by a nested call (an
      empty shadow-root list) propagates out of the whole search. */
  method FilterRecurseAll(doc: Node, p: Node -> bool) returns (r: Result<seq<Node>, SearchError>)
    ensures r == SearchAll(doc, p)
    decreases doc
  {
    var out: seq<Node> := [];
    var i := 0;
    PrependNothing(SearchFrom(doc.children, 0, p));
    while i < |doc.children|
      invariant 0 <= i <= |doc.children|
      invariant SearchFrom(doc.children, 0, p) == Prepend(out, SearchFrom(doc.children, i, p))
    {
      var child := doc.children[i];
      SearchFromStep(doc.children, i, p);
      var matched := if p(child) then [child] else [];
      var inShadow: Result<seq<Node>, SearchError> := Success([]);
      if child.shadowRoots.ShadowRoots? {
        if child.shadowRoots.roots == [] {
          inShadow := Failure(EmptyShadowRootList);
        } else {
          inShadow := FilterRecurseAll(child.shadowRoots.roots[0], p);
        }
      }
      if inShadow.Failure? {
        return inShadow;
      }
      var below := FilterRecurseAll(child, p);
      if below.Failure? {
        return below;
      }
      PrependCombine(out, matched, inShadow.value, below.value, SearchFrom(doc.children, i + 1, p));
      out := out + matched + inShadow.value + below.value;
      i := i + 1;
    }
    assert out + [] == out;
    return Success(out);
  }

  // ---------------------------------------------------------------------------
  // filter_recurse

  /** What the loop of `filter_recurse` returns for the children `cs[i..]`:
      the first child that matches, else the first match inside its first
      shadow root (only when the shadow-root list is non-empty), else the
      first match among its descendants, else the same for the next child. */
  function FirstMatchFrom(cs: seq<Node>, i: nat, p: Node -> bool): Option<Node>
    requires i <= |cs|
    decreases cs, |cs| - i
  {
    if i == |cs| then None
    else
      var c := cs[i];
      if p(c) then Some(c)
      else
        var inShadow := match c.shadowRoots
          case NoShadowRoots => None
          case ShadowRoots(roots) => if roots == [] then None else FirstMatchFrom(roots[0].children, 0, p);
        if inShadow.Some? then inShadow
        else
          var below := FirstMatchFrom(c.children, 0, p);
          if below.Some? then below else FirstMatchFrom(cs, i + 1, p)
  }

  /** The result of `filter_recurse(doc, p)`. */
  function SearchFirst(doc: Node, p: Node -> bool): Option<Node> {
    FirstMatchFrom(doc.children, 0, p)
  }

  /** `filter_recurse(doc, predicate)`: the same loop with early returns. */
  method FilterRecurse(doc: Node, p: Node -> bool) returns (r: Option<Node>)
    ensures r == SearchFirst(doc, p)
    decreases doc
  {
    var i := 0;
    while i < |doc.children|
      invariant 0 <= i <= |doc.children|
      invariant FirstMatchFrom(doc.children, 0, p) == FirstMatchFrom(doc.children, i, p)
    {
      var child := doc.children[i];
      if p(child) {
        return Some(child);
      }
      if child.shadowRoots.ShadowRoots? && child.shadowRoots.roots != [] {
        var shadowRootResult := FilterRecurse(child.shadowRoots.roots[0], p);
        if shadowRootResult.Some? {
          return shadowRootResult;
        }
      }
      var result := FilterRecurse(child, p);
      if result.Some? {
        return result;
      }
      i := i + 1;
    }
    return None;
  }

  /** On any tree where `filter_recurse_all` does not raise, `filter_recurse`
      returns `None` exactly when the former returns `[]`, and otherwise its
      first element. */
  lemma {:induction false} FirstMatchIsHeadOfSearch(cs: seq<Node>, i: nat, p: Node -> bool)
    requires i <= |cs| && SearchFrom(cs, i, p).Success?
    ensures var all := SearchFrom(cs, i, p).value;
      FirstMatchFrom(cs, i, p) == if all == [] then None else Some(all[0])
    decreases cs, |cs| - i
  {
    if i < |cs| {
      var c := cs[i];
      match c.shadowRoots {
        case NoShadowRoots =>
        case ShadowRoots(roots) => FirstMatchIsHeadOfSearch(roots[0].children, 0, p);
      }
      FirstMatchIsHeadOfSearch(c.children, 0, p);
      FirstMatchIsHeadOfSearch(cs, i + 1, p);
    }
  }

  // ---------------------------------------------------------------------------
  // remove_from_tree

  /** What `remove_from_tree` leaves in a children list `cs`. The Python loop
      removes from the list it iterates over: after a child with the target id
      is removed, the list iterator's next index already points past the
      following child, so that child is kept as it is, neither tested nor
      descended into. Every other kept child is pruned recursively. */
  function PruneChildren(cs: seq<Node>, target: int): seq<Node>
    decreases cs
  {
    if cs == [] then []
    else if cs[0].backendId == target then
      if |cs| == 1 then [] else [cs[1]] + PruneChildren(cs[2..], target)
    else
      [cs[0].(children := PruneChildren(cs[0].children, target))] + PruneChildren(cs[1..], target)
  }

  /** The tree after `remove_from_tree`: the same node with pruned children;
      its own id and its shadow roots are never looked at. */
  function Prune(n: Node, target: int): Node {
    n.(children := PruneChildren(n.children, target))
  }

  /** The state of the walk in `remove_from_tree` over the original list
      `orig`: `children[..i]` is finished, `children[i..]` is an untouched part
      of `orig`, and finishing it yields `PruneChildren(orig)`. Removing the
      last element leaves the iterator index one past the end. */
  ghost predicate WalkState(orig: seq<Node>, children: seq<Node>, i: nat, target: int) {
    if i <= |children| then
      children[..i] + PruneChildren(children[i..], target) == PruneChildren(orig, target) &&
      (forall k | i <= k < |children| :: children[k] in orig)
    else
      i == |children| + 1 && children == PruneChildren(orig, target)
  }

  /** Removing the current child (`list.remove`) moves the next child into the
      iterator's next slot, so the walk steps over it. */
  lemma WalkStepRemoved(orig: seq<Node>, children: seq<Node>, i: nat, target: int)
    requires i < |children| && WalkState(orig, children, i, target)
    requires children[i].backendId == target
    ensures WalkState(orig, children[..i] + children[i + 1..], i + 1, target)
  {
    var cs := children[i..];
    assert cs[0] == children[i] && cs[1..] == children[i + 1..];
    var next := children[..i] + children[i + 1..];
    if i + 1 < |children| {
      assert cs[1] == children[i + 1] && cs[2..] == children[i + 2..];
      assert next[..i + 1] == children[..i] + [children[i + 1]];
      assert next[i + 1..] == children[i + 2..];
    } else {
      assert next == children[..i];
    }
  }

  /** A kept child is replaced by its pruned self. */
  lemma WalkStepKept(orig: seq<Node>, children: seq<Node>, i: nat, target: int)
    requires i < |children| && WalkState(orig, children, i, target)
    requires children[i].backendId != target
    ensures WalkState(orig, children[i := Prune(children[i], target)], i + 1, target)
  {
    var cs := children[i..];
    assert cs[0] == children[i] && cs[1..] == children[i + 1..];
    var next := children[i := Prune(children[i], target)];
    assert next[..i + 1] == children[..i] + [Prune(children[i], target)];
    assert next[i + 1..] == children[i + 1..];
  }

  /** `remove_from_tree(tree, node)`, with the in-place list walk of the source:
      `i` is the list iterator's index into the list being mutated. The
      recursive call runs on every child, removed or not. */
  method RemoveFromTree(tree: Node, node: Node) returns (r: Node)
    ensures r == Prune(tree, node.backendId)
    decreases tree
  {
    var target := node.backendId;
    var children := tree.children;
    var i := 0;
    assert children[..0] + children[0..] == children;
    while i < |children|
      invariant WalkState(tree.children, children, i, target)
      decreases |children| - i + 1
    {
      var child := children[i];
      assert child in tree.children;
      var removed := false;
      if child.backendId == target {
        // tree.children.remove(child)
        WalkStepRemoved(tree.children, children, i, target);
        children := children[..i] + children[i + 1..];
        removed := true;
      }
      var pruned := RemoveFromTree(child, node);
      if !removed {
        WalkStepKept(tree.children, children, i, target);
        children := children[i := pruned];
      }
      i := i + 1;
    }
    if i == |children| {
      assert children[..i] == children && children[i..] == [];
    }
    r := tree.(children := children);
  }

  /** Ids of a list of nodes, in order. */
  function Ids(ns: seq<Node>): (r: seq<int>)
    ensures |r| == |ns|
  {
    if ns == [] then [] else [ns[0].backendId] + Ids(ns[1..])
  }

  /** `rs` is `cs` with some children whose id is `target` removed, the others
      kept in their original order, each either untouched or pruned. */
  predicate KeptInOrder(cs: seq<Node>, rs: seq<Node>, target: int)
    decreases |cs|
  {
    if cs == [] then rs == []
    else
      (cs[0].backendId == target && KeptInOrder(cs[1..], rs, target)) ||
      (rs != [] && (rs[0] == cs[0] || rs[0] == Prune(cs[0], target)) && KeptInOrder(cs[1..], rs[1..], target))
  }

  /** Only children carrying the target id are removed, and the survivors keep
      their relative order. */
  lemma {:induction false} PruneRemovesOnlyTarget(cs: seq<Node>, target: int)
    ensures KeptInOrder(cs, PruneChildren(cs, target), target)
    decreases |cs|
  {
    var rs := PruneChildren(cs, target);
    if cs == [] {
    } else if cs[0].backendId == target {
      if |cs| > 1 {
        PruneRemovesOnlyTarget(cs[2..], target);
        assert cs[1..][1..] == cs[2..];
        assert rs[0] == cs[1..][0] && rs[1..] == PruneChildren(cs[2..], target);
        assert KeptInOrder(cs[1..], rs, target);
      }
    } else {
      PruneRemovesOnlyTarget(cs[1..], target);
    }
  }

  /** The skip: when a child is removed, the child right after it survives
      unexamined, whatever its id and whatever lies below it. */
  lemma ChildAfterRemovedIsUntouched(cs: seq<Node>, target: int)
    requires |cs| >= 2 && cs[0].backendId == target
    ensures PruneChildren(cs, target) == [cs[1]] + PruneChildren(cs[2..], target)
  {
  }

  /** Two adjacent siblings with the target id: the second one survives. */
  lemma AdjacentMatchesKeepSecond(a: Node, b: Node, root: Node)
    requires a.backendId == b.backendId
    requires root.children == [a, b]
    ensures Prune(root, a.backendId).children == [b]
    ensures Ids(Prune(root, a.backendId).children) == [a.backendId]
  {
    assert [a, b][1] == b && [a, b][2..] == [];
    assert PruneChildren([a, b], a.backendId) == [b] + PruneChildren([], a.backendId);
  }

  /** Number of nodes carrying `target` among the children lists (shadow roots
      are not part of what `remove_from_tree` walks). */
  function CountId(cs: seq<Node>, target: int): nat
    decreases cs
  {
    if cs == [] then 0
    else (if cs[0].backendId == target then 1 else 0) + CountId(cs[0].children, target) + CountId(cs[1..], target)
  }

  lemma {:induction false} PruneWithoutTargetIsIdentity(cs: seq<Node>, target: int)
    requires CountId(cs, target) == 0
    ensures PruneChildren(cs, target) == cs
    decreases cs
  {
    if cs != [] {
      PruneWithoutTargetIsIdentity(cs[0].children, target);
      PruneWithoutTargetIsIdentity(cs[1..], target);
      assert cs[0].(children := cs[0].children) == cs[0];
    }
  }

  /** With backend ids unique in a snapshot (at most one node carries the
      target), the walk's skip is harmless: no node with the target id is left
      in the children lists. */
  lemma {:induction false} UniqueTargetIsRemoved(cs: seq<Node>, target: int)
    requires CountId(cs, target) <= 1
    ensures CountId(PruneChildren(cs, target), target) == 0
    decreases cs
  {
    if cs != [] {
      if cs[0].backendId == target {
        if |cs| > 1 {
          PruneWithoutTargetIsIdentity(cs[2..], target);
          assert cs[1..][1..] == cs[2..];
          assert PruneChildren(cs, target) == cs[1..];
        }
      } else {
        UniqueTargetIsRemoved(cs[0].children, target);
        UniqueTargetIsRemoved(cs[1..], target);
        var head := cs[0].(children := PruneChildren(cs[0].children, target));
        assert PruneChildren(cs, target) == [head] + PruneChildren(cs[1..], target);
        assert ([head] + PruneChildren(cs[1..], target))[1..] == PruneChildren(cs[1..], target);
      }
    }
  }
}
