/** The interactive network tree: the network statistics computed by a
    recursive walk over the referral forest, and the expanded-card set behind
    the Expand All / Collapse All buttons. */
module VisualNetworkTree {
  import opened ReferralTree

  /** The id of the root that stands for the viewing user. The walk never
      counts it, but it does walk into its children. */
  const Sentinel: string := "user"

  /** The counters the walk produces: `total`, `active`, and the per-level
      table `levels` ({1, 2, 3}) as three fields. */
  datatype Stats = Stats(total: int, active: int, level1: int, level2: int, level3: int)

  /** One of the five counters. */
  datatype Counter = Members | ActiveMembers | AtLevel(l: Level)

  /** `levels[l]` of the source's table. */
  function LevelCount(s: Stats, l: Level): int
  {
    if l == 1 then s.level1 else if l == 2 then s.level2 else s.level3
  }

  function Field(s: Stats, c: Counter): int
  {
    match c
    case Members => s.total
    case ActiveMembers => s.active
    case AtLevel(l) => LevelCount(s, l)
  }

  function Zero(): Stats
  {
    Stats(0, 0, 0, 0, 0)
  }

  /** What visiting one node adds to counter `c`: nothing for the sentinel;
      otherwise one to `total`, one to the node's own level, and one to
      `active` when the node is active. */
  function Bump(n: Node, c: Counter): int
  {
    if n.id == Sentinel then 0
    else match c
      case Members => 1
      case ActiveMembers => if n.status == Active then 1 else 0
      case AtLevel(l) => if n.level == l then 1 else 0
  }

  /** Counter `c` over a forest, following the walk: each node, then its
      subtree, then the rest of the list. */
  function Count(forest: seq<Node>, c: Counter): int
    decreases forest
  {
    if forest == [] then 0
    else Bump(forest[0], c) + Count(forest[0].children, c) + Count(forest[1..], c)
  }

  /** A counter over a suffix of a list: its first node, that node's
      subtree, then the rest. */
  lemma CountSuffix(nodeList: seq<Node>, i: nat, c: Counter)
    requires i < |nodeList|
    ensures Count(nodeList[i..], c) ==
      Bump(nodeList[i], c) + Count(nodeList[i].children, c) + Count(nodeList[i + 1..], c)
  {
    assert nodeList[i..][0] == nodeList[i];
    assert nodeList[i..][1..] == nodeList[i + 1..];
  }

  /** Every counted node adds one to `total` and to exactly one level, so
      the levels always add up to the total, and no more nodes can be active
      than are counted. */
  lemma {:induction false} CountsBalanced(forest: seq<Node>)
    ensures Count(forest, Members) ==
      Count(forest, AtLevel(1)) + Count(forest, AtLevel(2)) + Count(forest, AtLevel(3))
    ensures 0 <= Count(forest, ActiveMembers) <= Count(forest, Members)
    decreases forest
  {
    if forest != [] {
      CountsBalanced(forest[0].children);
      CountsBalanced(forest[1..]);
    }
  }

  /** The counter updates for one node: nothing for the sentinel; otherwise
      `total`, the node's level and, for an active node, `active` go up by
      one. */
  method Visit(node: Node, counters: Stats) returns (after: Stats)
    ensures forall c :: Field(after, c) == Field(counters, c) + Bump(node, c)
  {
    after := counters;
    if node.id != Sentinel {
      after := after.(total := after.total + 1);
      if node.level == 1 {
        after := after.(level1 := after.level1 + 1);
      } else if node.level == 2 {
        after := after.(level2 := after.level2 + 1);
      } else {
        after := after.(level3 := after.level3 + 1);
      }
      if node.status == Active {
        after := after.(active := after.active + 1);
      }
    }
  }

  /** The walk itself: visits `nodeList` in order, bumping the counters for
      every node but the sentinel, and descends into the children of every
      node whatever its status. Each counter ends at its incoming value plus
      its count over the list. */
  method Traverse(nodeList: seq<Node>, counters: Stats) returns (after: Stats)
    ensures forall c :: Field(after, c) == Field(counters, c) + Count(nodeList, c)
    decreases nodeList
  {
    after := counters;
    for i := 0 to |nodeList|
      invariant forall c :: Field(after, c) + Count(nodeList[i..], c) == Field(counters, c) + Count(nodeList, c)
    {
      var node := nodeList[i];
      after := Visit(node, after);
      if node.children != [] {
        after := Traverse(node.children, after);
      }
      forall c
        ensures Count(nodeList[i..], c) == Bump(node, c) + Count(node.children, c) + Count(nodeList[i + 1..], c)
      {
        CountSuffix(nodeList, i, c);
      }
    }
    assert nodeList[|nodeList|..] == [];
  }

  /** `calculateNetworkStats`: counters start at zero and the walk runs over
      the whole forest, so every counter holds its count over the forest; in
      particular the levels add up to the total and `active` does not
      exceed it. */
  method CalculateNetworkStats(nodes: seq<Node>) returns (stats: Stats)
    ensures forall c :: Field(stats, c) == Count(nodes, c)
    ensures stats.total == stats.level1 + stats.level2 + stats.level3
    ensures 0 <= stats.active <= stats.total
  {
    stats := Traverse(nodes, Zero());
    CountsBalanced(nodes);
    assert Field(stats, Members) == Count(nodes, Members);
    assert Field(stats, ActiveMembers) == Count(nodes, ActiveMembers);
    assert Field(stats, AtLevel(1)) == Count(nodes, AtLevel(1));
    assert Field(stats, AtLevel(2)) == Count(nodes, AtLevel(2));
    assert Field(stats, AtLevel(3)) == Count(nodes, AtLevel(3));
  }

  // An independent account of the same numbers, over the flattened forest.

  /** Whether a member falls under counter `c`, read off the member alone. */
  predicate Matches(n: Node, c: Counter)
  {
    match c
    case Members => true
    case ActiveMembers => n.status == Active
    case AtLevel(l) => n.level == l
  }

  /** How many of `all`, the sentinel aside, fall under counter `c`. */
  function Tally(all: seq<Node>, c: Counter): (k: nat)
    ensures k <= |all|
  {
    if all == [] then 0
    else (if all[0].id != Sentinel && Matches(all[0], c) then 1 else 0) + Tally(all[1..], c)
  }

  lemma {:induction false} TallyAppend(a: seq<Node>, b: seq<Node>, c: Counter)
    ensures Tally(a + b, c) == Tally(a, c) + Tally(b, c)
    decreases a
  {
    if a != [] {
      assert (a + b)[0] == a[0];
      assert (a + b)[1..] == a[1..] + b;
      TallyAppend(a[1..], b, c);
    } else {
      assert a + b == b;
    }
  }

  /** The walk counts exactly the non-sentinel members of the whole forest,
      at every depth and below inactive members as well: `total` is their
      number, `active` the number of active ones, and each level count the
      number at that level. */
  lemma {:induction false} CountIsTally(forest: seq<Node>, c: Counter)
    ensures Count(forest, c) == Tally(Flatten(forest), c)
    decreases forest
  {
    if forest != [] {
      var head, rest := forest[0], forest[1..];
      CountIsTally(head.children, c);
      CountIsTally(rest, c);
      var sub, tail := Flatten(head.children), Flatten(rest);
      assert Flatten(forest) == [head] + sub + tail;
      TallyAppend([head] + sub, tail, c);
      TallyAppend([head], sub, c);
      assert [head][1..] == [];
    }
  }

  /** Counter `c` over a forest of one node: the node's own bump, then its
      subtree. */
  lemma CountSingle(n: Node, c: Counter)
    ensures Count([n], c) == Bump(n, c) + Count(n.children, c)
  {
    CountSuffix([n], 0, c);
    assert [n][1..] == [];
  }

  /** The sentinel is skipped but its subtree is walked: a forest made of
      the sentinel alone has the counts of the sentinel's children. */
  lemma SentinelSkipped(n: Node, c: Counter)
    requires n.id == Sentinel
    ensures Count([n], c) == Count(n.children, c)
  {
    CountSingle(n, c);
  }

  /** Any other node counts once in `total` and in its own level and in no
      other level, once in `active` exactly when it is active, and its
      subtree is counted beneath it. */
  lemma MemberCounted(n: Node, l: Level)
    requires n.id != Sentinel
    ensures Count([n], Members) == 1 + Count(n.children, Members)
    ensures Count([n], AtLevel(l)) == Count(n.children, AtLevel(l)) + (if n.level == l then 1 else 0)
    ensures Count([n], ActiveMembers) == Count(n.children, ActiveMembers) + (if n.status == Active then 1 else 0)
  {
    CountSingle(n, Members);
    CountSingle(n, AtLevel(l));
    CountSingle(n, ActiveMembers);
  }

  // Expansion state of the tree view.

  /** The ids of the roots' direct children, in order. */
  function ChildIds(children: seq<Node>): (ids: seq<string>)
    ensures forall id :: id in ids <==> exists j :: 0 <= j < |children| && children[j].id == id
  {
    if children == [] then [] else [children[0].id] + ChildIds(children[1..])
  }

  /** What Expand All flat-maps the forest to: each root id followed by the
      ids of its direct children. Grandchildren's ids are not included. */
  function ExpandAllList(forest: seq<Node>): (ids: seq<string>)
    ensures forall id :: id in ids <==>
      exists i :: 0 <= i < |forest| &&
        (forest[i].id == id || exists j :: 0 <= j < |forest[i].children| && forest[i].children[j].id == id)
  {
    if forest == [] then []
    else [forest[0].id] + ChildIds(forest[0].children) + ExpandAllList(forest[1..])
  }

  function ExpandAllIds(forest: seq<Node>): set<string>
  {
    set id | id in ExpandAllList(forest)
  }

  /** The state behind the tree view: which cards are expanded. */
  class TreeView {
    var expanded: set<string>

    /** The view opens with the sentinel and the first two members expanded. */
    constructor ()
      ensures expanded == {Sentinel, "1", "2"}
    {
      expanded := {Sentinel, "1", "2"};
    }

    function IsExpanded(id: string): bool
      reads this
    {
      id in expanded
    }

    /** `toggleNode`: copy the set, then delete `nodeId` if present and add
        it otherwise. */
    method ToggleNode(nodeId: string)
      modifies this
      ensures expanded == Toggled(old(expanded), nodeId)
    {
      var newSet := expanded;
      if nodeId in newSet {
        newSet := newSet - {nodeId};
      } else {
        newSet := newSet + {nodeId};
      }
      expanded := newSet;
    }

    method ExpandAll(forest: seq<Node>)
      modifies this
      ensures expanded == ExpandAllIds(forest)
    {
      expanded := ExpandAllIds(forest);
    }

    /** Collapse All leaves the sentinel expanded. */
    method CollapseAll()
      modifies this
      ensures expanded == {Sentinel}
    {
      expanded := {Sentinel};
    }

    /** The cards on screen for `forest` in the current state. */
    function Cards(forest: seq<Node>): seq<Node>
      reads this
    {
      Rendered(forest, expanded)
    }
  }

  // The shipped mock forest.

  /** The forest the component displays. */
  function MockNetworkData(): seq<Node>
  {
    [Node(Sentinel, "You", "john.doe@example.com", "2023-12-01", 2450.0, Active, 1, [
      Node("1", "Alex Johnson", "alex@example.com", "2024-01-15", 1250.0, Active, 1, [
        Node("1.1", "Priya Sharma", "priya@example.com", "2024-02-10", 850.0, Active, 2, [
          Node("1.1.1", "Kumar Patel", "kumar@example.com", "2024-02-20", 450.0, Active, 3, []),
          Node("1.1.2", "Lisa Wang", "lisa@example.com", "2024-02-25", 320.0, Active, 3, [])]),
        Node("1.2", "Mike Chen", "mike@example.com", "2024-02-15", 320.0, Inactive, 2, [])]),
      Node("2", "Sarah Wilson", "sarah@example.com", "2024-01-20", 980.0, Active, 1, [
        Node("2.1", "David Brown", "david@example.com", "2024-02-05", 650.0, Active, 2, [])]),
      Node("3", "Emily Davis", "emily@example.com", "2024-01-25", 750.0, Active, 1, [])])]
  }

  // On the mock forest: 8 members, 7 active, 3 at level 1, 3 at level 2
  // and 2 at level 3.

  lemma MockMembers()
    ensures Count(MockNetworkData(), Members) == 8
  {
  }

  lemma MockActiveMembers()
    ensures Count(MockNetworkData(), ActiveMembers) == 7
  {
  }

  lemma MockLevel1()
    ensures Count(MockNetworkData(), AtLevel(1)) == 3
  {
  }

  lemma MockLevel2()
    ensures Count(MockNetworkData(), AtLevel(2)) == 3
  {
  }

  lemma MockLevel3()
    ensures Count(MockNetworkData(), AtLevel(3)) == 2
  {
  }

  /** On the mock forest Expand All expands the sentinel and its three
      children. */
  lemma MockExpandAll()
    ensures ExpandAllIds(MockNetworkData()) == {Sentinel, "1", "2", "3"}
  {
    var m := MockNetworkData();
    assert ExpandAllList(m) == [Sentinel] + ChildIds(m[0].children) + ExpandAllList([]);
    assert ChildIds(m[0].children) == ["1", "2", "3"];
  }

  /** On the mock forest the initial state, Expand All and Collapse All all
      show the same four cards (the sentinel and its three children): every
      one of them keeps the only root, the sentinel, expanded, and children
      are never shown expanded. */
  lemma MockViewsCoincide()
    ensures Rendered(MockNetworkData(), {Sentinel}) == Rendered(MockNetworkData(), ExpandAllIds(MockNetworkData()))
    ensures Rendered(MockNetworkData(), {Sentinel}) == Rendered(MockNetworkData(), {Sentinel, "1", "2"})
    ensures |Rendered(MockNetworkData(), {Sentinel})| == 4
  {
    var m := MockNetworkData();
    MockExpandAll();
    RenderedDependsOnlyOnRoots(m, {Sentinel}, ExpandAllIds(m));
    RenderedDependsOnlyOnRoots(m, {Sentinel}, {Sentinel, "1", "2"});
    assert Rendered(m, {Sentinel}) == [m[0]] + m[0].children + Rendered([], {Sentinel});
  }
}
