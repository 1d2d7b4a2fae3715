/** The referral forest shared by the two network views: a member of the
    three-level programme, the members they referred, and the bookkeeping of
    which cards are shown expanded. */
module ReferralTree {

  datatype Status = Active | Inactive

  /** The referral tier; the source types it as the literal union 1 | 2 | 3. */
  type Level = l: int | 1 <= l <= 3 witness 1

  /** One member and the members they referred, in display order. An absent
      `children` array is the empty sequence here: every use in the source
      treats the two alike. */
  datatype Node = Node(
    id: string,
    name: string,
    email: string,
    joinDate: string,
    totalEarnings: real,
    status: Status,
    level: Level,
    children: seq<Node>)

  /** Every node of a forest, each before its descendants, in document order:
      the reference for "all members of the network". */
  function Flatten(forest: seq<Node>): (all: seq<Node>)
    ensures |all| >= |forest|
    decreases forest
  {
    if forest == [] then []
    else [forest[0]] + Flatten(forest[0].children) + Flatten(forest[1..])
  }

  /** The expanded set after the user clicks the chevron of `id`: a copy of
      the set with `id` removed if it was present and added otherwise. */
  function Toggled(expanded: set<string>, id: string): (r: set<string>)
    ensures id in r <==> id !in expanded
    ensures forall other :: other != id ==> (other in r <==> other in expanded)
  {
    if id in expanded then expanded - {id} else expanded + {id}
  }

  /** Toggling the same card twice restores the expanded set. */
  lemma ToggleTwice(expanded: set<string>, id: string)
    ensures Toggled(Toggled(expanded, id), id) == expanded
  {
  }

  /** The cards a tree view renders, in order: every root, each followed by
      its children when the root is in the expanded set. A child card is
      always rendered with `isExpanded={false}`, so nothing below the
      children ever appears. */
  function Rendered(forest: seq<Node>, expanded: set<string>): (cards: seq<Node>)
    ensures forall i :: 0 <= i < |forest| ==> forest[i] in cards
    ensures forall c :: c in cards <==>
      c in forest || exists i :: 0 <= i < |forest| && forest[i].id in expanded && c in forest[i].children
    decreases forest
  {
    if forest == [] then []
    else
      var shown := if forest[0].id in expanded then forest[0].children else [];
      var rest := Rendered(forest[1..], expanded);
      assert forall i :: 1 <= i < |forest| ==> forest[i] == forest[1..][i - 1];
      [forest[0]] + shown + rest
  }

  /** Only the membership of root ids decides what is shown: two expanded
      sets that agree on every root render the same cards. */
  lemma {:induction false} RenderedDependsOnlyOnRoots(forest: seq<Node>, e1: set<string>, e2: set<string>)
    requires forall i :: 0 <= i < |forest| ==> (forest[i].id in e1 <==> forest[i].id in e2)
    ensures Rendered(forest, e1) == Rendered(forest, e2)
    decreases forest
  {
    if forest != [] {
      RenderedDependsOnlyOnRoots(forest[1..], e1, e2);
    }
  }
}
