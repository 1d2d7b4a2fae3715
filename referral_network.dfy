/** The referral-network panel: the network-size and activity figures shown
    above the tree, and the expanded-card set of the tree below them. */
module ReferralNetwork {
  import opened ReferralTree
  import opened Wrappers

  // The depth-bounded size.

  /** How many grandchildren hang below `children`: the sum of their
      children's lengths. */
  function GrandchildCount(children: seq<Node>): (k: nat)
    decreases children
  {
    if children == [] then 0 else |children[0].children| + GrandchildCount(children[1..])
  }

  /** What one entry adds to `totalNetworkSize`: itself, its children and
      its grandchildren. */
  function EntrySize(user: Node): nat
  {
    1 + |user.children| + GrandchildCount(user.children)
  }

  /** `totalNetworkSize` as a function of the list it reduces over. */
  function DepthBoundedSize(users: seq<Node>): (k: nat)
    ensures k >= |users|
    decreases users
  {
    if users == [] then 0 else EntrySize(users[0]) + DepthBoundedSize(users[1..])
  }

  lemma GrandchildStep(children: seq<Node>, j: nat)
    requires j < |children|
    ensures GrandchildCount(children[j..]) == |children[j].children| + GrandchildCount(children[j + 1..])
  {
    assert children[j..][0] == children[j];
    assert children[j..][1..] == children[j + 1..];
  }

  lemma SizeStep(users: seq<Node>, i: nat)
    requires i < |users|
    ensures DepthBoundedSize(users[i..]) == EntrySize(users[i]) + DepthBoundedSize(users[i + 1..])
  {
    assert users[i..][0] == users[i];
    assert users[i..][1..] == users[i + 1..];
  }

  /** The reduce over the entries: each entry starts its own count at one,
      adds the number of its children, then walks the children adding the
      number of each child's children. An absent `children` array and an
      empty one contribute the same nothing, so the model does not tell
      them apart. */
  method TotalNetworkSize(users: seq<Node>) returns (acc: int)
    ensures acc == DepthBoundedSize(users)
  {
    acc := 0;
    for i := 0 to |users|
      invariant acc + DepthBoundedSize(users[i..]) == DepthBoundedSize(users)
    {
      var user := users[i];
      var count := 1;
      count := count + |user.children|;
      for j := 0 to |user.children|
        invariant count + GrandchildCount(user.children[j..]) == EntrySize(user)
      {
        GrandchildStep(user.children, j);
        count := count + |user.children[j].children|;
      }
      SizeStep(users, i);
      acc := acc + count;
    }
  }

  // The same figure measured against the whole forest.

  function Max(a: nat, b: nat): nat
  {
    if a < b then b else a
  }

  /** The number of levels of a forest: 0 when empty, 1 when no root has
      children, and so on. */
  function Height(forest: seq<Node>): nat
    decreases forest
  {
    if forest == [] then 0 else Max(1 + Height(forest[0].children), Height(forest[1..]))
  }

  /** The number of nodes of a forest that sit within its first `d`
      levels. */
  function WithinDepth(forest: seq<Node>, d: nat): nat
    decreases forest
  {
    if forest == [] then 0
    else (if d == 0 then 0 else 1 + WithinDepth(forest[0].children, d - 1)) + WithinDepth(forest[1..], d)
  }

  lemma {:induction false} WithinDepthZero(forest: seq<Node>)
    ensures WithinDepth(forest, 0) == 0
    decreases forest
  {
    if forest != [] {
      WithinDepthZero(forest[1..]);
    }
  }

  lemma {:induction false} WithinDepthOne(forest: seq<Node>)
    ensures WithinDepth(forest, 1) == |forest|
    decreases forest
  {
    if forest != [] {
      WithinDepthZero(forest[0].children);
      WithinDepthOne(forest[1..]);
    }
  }

  lemma {:induction false} WithinDepthTwo(forest: seq<Node>)
    ensures WithinDepth(forest, 2) == |forest| + GrandchildCount(forest)
    decreases forest
  {
    if forest != [] {
      WithinDepthOne(forest[0].children);
      WithinDepthTwo(forest[1..]);
    }
  }

  /** `totalNetworkSize` counts exactly the members within three levels of
      the top of the list: the entries, their children and their
      grandchildren. */
  lemma {:induction false} SizeIsWithinDepthThree(users: seq<Node>)
    ensures DepthBoundedSize(users) == WithinDepth(users, 3)
    decreases users
  {
    if users != [] {
      WithinDepthTwo(users[0].children);
      SizeIsWithinDepthThree(users[1..]);
    }
  }

  lemma {:induction false} WithinDepthAtMostAll(forest: seq<Node>, d: nat)
    ensures WithinDepth(forest, d) <= |Flatten(forest)|
    decreases forest
  {
    if forest != [] {
      var head, rest := forest[0], forest[1..];
      assert |Flatten(forest)| == 1 + |Flatten(head.children)| + |Flatten(rest)|;
      WithinDepthAtMostAll(rest, d);
      if d > 0 {
        WithinDepthAtMostAll(head.children, d - 1);
      }
    }
  }

  /** Counting to depth `d` misses nobody exactly when the forest has no
      more than `d` levels. */
  lemma {:induction false} WithinDepthAllExactly(forest: seq<Node>, d: nat)
    ensures WithinDepth(forest, d) == |Flatten(forest)| <==> Height(forest) <= d
    decreases forest
  {
    if forest != [] {
      var head, rest := forest[0], forest[1..];
      var whole, below, after := |Flatten(forest)|, |Flatten(head.children)|, |Flatten(rest)|;
      assert whole == 1 + below + after;
      WithinDepthAtMostAll(rest, d);
      WithinDepthAllExactly(rest, d);
      if d == 0 {
        WithinDepthZero(forest);
      } else {
        WithinDepthAtMostAll(head.children, d - 1);
        WithinDepthAllExactly(head.children, d - 1);
        assert WithinDepth(forest, d) == 1 + WithinDepth(head.children, d - 1) + WithinDepth(rest, d);
      }
    }
  }

  /** `totalNetworkSize` never exceeds the number of members in the whole
      forest, and equals it exactly when no member sits below the third
      level. */
  lemma SizeAgainstWholeForest(users: seq<Node>)
    ensures DepthBoundedSize(users) <= |Flatten(users)|
    ensures DepthBoundedSize(users) == |Flatten(users)| <==> Height(users) <= 3
  {
    SizeIsWithinDepthThree(users);
    WithinDepthAtMostAll(users, 3);
    WithinDepthAllExactly(users, 3);
  }

  // Active members and the activity rate.

  /** `activeUsers`: how many entries of the top-level list are active;
      nobody below the top level is looked at. */
  function ActiveUsers(users: seq<Node>): (k: nat)
    decreases users
  {
    if users == [] then 0 else (if users[0].status == Active then 1 else 0) + ActiveUsers(users[1..])
  }

  /** `activeUsers` reaches the number of entries exactly when every entry
      is active, and is zero exactly when none is. */
  lemma {:induction false} ActiveUsersExtremes(users: seq<Node>)
    ensures ActiveUsers(users) == |users| <==> forall i :: 0 <= i < |users| ==> users[i].status == Active
    ensures ActiveUsers(users) == 0 <==> forall i :: 0 <= i < |users| ==> users[i].status != Active
    decreases users
  {
    if users != [] {
      ActiveUsersExtremes(users[1..]);
      ActiveUsersAtMostEntries(users[1..]);
      assert forall i :: 1 <= i < |users| ==> users[i] == users[1..][i - 1];
    }
  }

  lemma {:induction false} ActiveUsersAtMostEntries(users: seq<Node>)
    ensures ActiveUsers(users) <= |users|
    decreases users
  {
    if users != [] {
      ActiveUsersAtMostEntries(users[1..]);
    }
  }

  /** Active entries are entries, and every entry is counted in the size. */
  lemma ActiveWithinSize(users: seq<Node>)
    ensures ActiveUsers(users) <= |users| <= DepthBoundedSize(users)
  {
    ActiveUsersAtMostEntries(users);
  }

  /** `Math.round((activeUsers / totalNetworkSize) * 100)`, on exact
      rationals: `Math.round` rounds halves up, so for a positive total the
      rate is the floor of `100 * active / total + 1/2`. A zero total makes
      the quotient not a finite number, which is `None` here. */
  function ActivityRate(active: nat, total: nat): (r: Option<int>)
    ensures r.None? <==> total == 0
  {
    if total == 0 then None else Some((200 * active + total) / (2 * total))
  }

  /** For a positive total the rate is the nearest integer to the exact
      percentage, halves going up. */
  lemma ActivityRateRounds(active: nat, total: nat)
    requires total > 0
    ensures ActivityRate(active, total).Some?
    ensures 2 * total * ActivityRate(active, total).value - total <= 200 * active
    ensures 200 * active < 2 * total * ActivityRate(active, total).value + total
  {
  }

  /** A rate over at most the total lies in 0..100. */
  lemma ActivityRateInRange(active: nat, total: nat)
    requires active <= total && total > 0
    ensures 0 <= ActivityRate(active, total).value <= 100
  {
    var n, d := 200 * active + total, 2 * total;
    assert 0 <= n < d * 101;
    DivBelow(n, d, 101);
  }

  lemma DivBelow(n: nat, d: nat, k: nat)
    requires d > 0 && n < d * k
    ensures n / d < k
  {
    var q := n / d;
    assert d * q <= n;
    assert d * (k - q) > 0;
  }

  /** The figure under "Activity Rate" for any list with at least one
      entry lies in 0..100. */
  lemma ShownRateInRange(users: seq<Node>)
    requires users != []
    ensures ActivityRate(ActiveUsers(users), DepthBoundedSize(users)).Some?
    ensures 0 <= ActivityRate(ActiveUsers(users), DepthBoundedSize(users)).value <= 100
  {
    ActiveWithinSize(users);
    ActivityRateInRange(ActiveUsers(users), DepthBoundedSize(users));
  }

  // Expansion state.

  /** The state behind the referral tree: which entries are expanded. */
  class NetworkView {
    var expanded: set<string>

    /** Nothing is expanded at first. */
    constructor ()
      ensures expanded == {}
    {
      expanded := {};
    }

    /** `toggleExpanded`: copy the set, then delete `userId` if present and
        add it otherwise. */
    method ToggleExpanded(userId: string)
      modifies this
      ensures expanded == Toggled(old(expanded), userId)
    {
      var newExpanded := expanded;
      if userId in newExpanded {
        newExpanded := newExpanded - {userId};
      } else {
        newExpanded := newExpanded + {userId};
      }
      expanded := newExpanded;
    }

    /** The cards on screen for `users` in the current state. */
    function Cards(users: seq<Node>): seq<Node>
      reads this
    {
      Rendered(users, expanded)
    }
  }

  // The shipped mock list.

  function MockReferralData(): seq<Node>
  {
    [Node("1", "Alex Johnson", "alex@example.com", "2024-01-15", 1250.0, Active, 1, [
       Node("2", "Priya Sharma", "priya@example.com", "2024-02-10", 850.0, Active, 2, [
         Node("3", "Kumar Patel", "kumar@example.com", "2024-02-20", 450.0, Active, 3, [])])]),
     Node("4", "Sarah Wilson", "sarah@example.com", "2024-01-20", 980.0, Active, 1, [
       Node("5", "Mike Chen", "mike@example.com", "2024-02-15", 320.0, Inactive, 2, [])])]
  }

  /** On the mock list: size 5, both entries active, rate 40. */
  lemma MockReferralFigures()
    ensures DepthBoundedSize(MockReferralData()) == 5
    ensures ActiveUsers(MockReferralData()) == 2
    ensures ActivityRate(2, 5) == Some(40)
  {
  }
}
