/** The points ledger: the search-and-filter view over the transactions, the
    summary totals, and the icon and colour chosen for each row. */
module PointsHistory {
  import opened Wrappers

  datatype TxType = ReferralSignup | ReferralPurchase | LevelBonus | MonthlyBonus | SpecialPromotion

  datatype TxStatus = Completed | Pending | Cancelled

  /** One ledger entry. `amount`, `fromUser` and `level` are optional in the
      source; `date` is an ISO timestamp kept as text. */
  datatype Transaction = Transaction(
    id: string,
    txType: TxType,
    description: string,
    points: int,
    amount: Option<real>,
    fromUser: Option<string>,
    level: Option<int>,
    date: string,
    status: TxStatus)

  // Case-insensitive search.

  /** `toLowerCase` on one character, for the ASCII letters. */
  function LowerChar(c: char): (r: char)
    ensures !('A' <= r <= 'Z')
    ensures r == c <==> !('A' <= c <= 'Z')
  {
    if 'A' <= c <= 'Z' then (c as int + 32) as char else c
  }

  /** `toLowerCase` over ASCII, one character at a time: no capital is
      left, and a string comes back unchanged exactly when it has none. */
  function Lower(s: string): (r: string)
    ensures |r| == |s|
    ensures forall i :: 0 <= i < |s| ==> r[i] == LowerChar(s[i])
    ensures forall i :: 0 <= i < |r| ==> !('A' <= r[i] <= 'Z')
    ensures r == s <==> forall i :: 0 <= i < |s| ==> !('A' <= s[i] <= 'Z')
  {
    seq(|s|, i requires 0 <= i < |s| => LowerChar(s[i]))
  }

  /** Lower-casing twice is lower-casing once. */
  lemma LowerIdempotent(s: string)
    ensures Lower(Lower(s)) == Lower(s)
  {
    assert forall i :: 0 <= i < |s| ==> LowerChar(LowerChar(s[i])) == LowerChar(s[i]);
  }

  /** `pat` occurs in `s` starting at index `k`. */
  predicate OccursAt(s: string, pat: string, k: int)
  {
    0 <= k && k + |pat| <= |s| && s[k..k + |pat|] == pat
  }

  /** `s.includes(pat)`: `pat` occurs in `s` at some position. */
  function Includes(s: string, pat: string): (r: bool)
    ensures r <==> exists k :: OccursAt(s, pat, k)
    decreases |s|
  {
    if |pat| > |s| then false
    else if s[..|pat|] == pat then
      assert OccursAt(s, pat, 0);
      true
    else
      OccursShift(s, pat);
      assert !OccursAt(s, pat, 0);
      Includes(s[1..], pat)
  }

  /** Occurrences in `s` after its first character are the occurrences in
      `s[1..]`, one index further on. */
  lemma OccursShift(s: string, pat: string)
    requires |s| > 0
    ensures forall k :: OccursAt(s[1..], pat, k) ==> OccursAt(s, pat, k + 1)
    ensures forall k :: k >= 1 && OccursAt(s, pat, k) ==> OccursAt(s[1..], pat, k - 1)
  {
    forall k | OccursAt(s[1..], pat, k)
      ensures OccursAt(s, pat, k + 1)
    {
      SliceOfTail(s, k, |pat|);
    }
    forall k | k >= 1 && OccursAt(s, pat, k)
      ensures OccursAt(s[1..], pat, k - 1)
    {
      SliceOfTail(s, k - 1, |pat|);
    }
  }

  lemma SliceOfTail(s: string, j: nat, n: nat)
    requires j + 1 + n <= |s|
    ensures s[1..][j..j + n] == s[j + 1..j + 1 + n]
  {
    var a, b := s[1..][j..j + n], s[j + 1..j + 1 + n];
    assert |a| == n == |b|;
    forall i | 0 <= i < n
      ensures a[i] == b[i]
    {
      assert a[i] == s[1..][j + i] == s[j + 1 + i];
    }
  }

  /** The empty search term occurs in every text. */
  lemma IncludesEmpty(s: string)
    ensures Includes(s, "")
  {
    assert OccursAt(s, "", 0);
  }

  /** The search clause: the lower-cased term occurs in the lower-cased
      description or, when there is one, in the lower-cased `fromUser`. */
  predicate MatchesSearch(tx: Transaction, term: string)
  {
    Includes(Lower(tx.description), Lower(term)) ||
    (tx.fromUser.Some? && Includes(Lower(tx.fromUser.value), Lower(term)))
  }

  /** The search does not see the case of the term. */
  lemma SearchIgnoresCase(tx: Transaction, term: string)
    ensures MatchesSearch(tx, term) == MatchesSearch(tx, Lower(term))
  {
    LowerIdempotent(term);
  }

  /** An entry without `fromUser` matches only through its description. */
  lemma SearchWithoutFromUser(tx: Transaction, term: string)
    requires tx.fromUser.None?
    ensures MatchesSearch(tx, term) <==> Includes(Lower(tx.description), Lower(term))
  {
  }

  // The filter view.

  datatype TypeFilter = AllTypes | OfType(t: TxType)

  datatype StatusFilter = AnyStatus | WithStatus(s: TxStatus)

  /** The three clauses of the filter, all of which must hold. */
  predicate Keep(tx: Transaction, term: string, tf: TypeFilter, sf: StatusFilter)
  {
    MatchesSearch(tx, term) &&
    (tf.AllTypes? || tx.txType == tf.t) &&
    (sf.AnyStatus? || tx.status == sf.s)
  }

  /** `filteredTransactions`: the entries that pass, in ledger order. */
  function Filtered(txs: seq<Transaction>, term: string, tf: TypeFilter, sf: StatusFilter): (r: seq<Transaction>)
    ensures |r| <= |txs|
    ensures forall x :: x in r ==> x in txs && Keep(x, term, tf, sf)
    ensures forall x :: x in txs && Keep(x, term, tf, sf) ==> x in r
    decreases txs
  {
    if txs == [] then []
    else if Keep(txs[0], term, tf, sf) then [txs[0]] + Filtered(txs[1..], term, tf, sf)
    else Filtered(txs[1..], term, tf, sf)
  }

  /** Filtering a ledger made of two parts filters each part in place: the
      view keeps the ledger's order. */
  lemma {:induction false} FilteredAppend(a: seq<Transaction>, b: seq<Transaction>, term: string, tf: TypeFilter, sf: StatusFilter)
    ensures Filtered(a + b, term, tf, sf) == Filtered(a, term, tf, sf) + Filtered(b, term, tf, sf)
    decreases a
  {
    if a == [] {
      assert a + b == b;
    } else {
      assert (a + b)[0] == a[0];
      assert (a + b)[1..] == a[1..] + b;
      FilteredAppend(a[1..], b, term, tf, sf);
    }
  }

  /** Each entry is kept as often as it occurs, or dropped altogether. */
  lemma {:induction false} FilteredCounts(txs: seq<Transaction>, term: string, tf: TypeFilter, sf: StatusFilter)
    ensures forall x :: multiset(Filtered(txs, term, tf, sf))[x] ==
                       (if Keep(x, term, tf, sf) then multiset(txs)[x] else 0)
    decreases txs
  {
    if txs != [] {
      FilteredCounts(txs[1..], term, tf, sf);
      assert txs == [txs[0]] + txs[1..];
    }
  }

  /** With both selects on "all" and an empty search box, nothing is
      filtered out. */
  lemma {:induction false} NoFilterKeepsAll(txs: seq<Transaction>)
    ensures Filtered(txs, "", AllTypes, AnyStatus) == txs
    decreases txs
  {
    if txs != [] {
      IncludesEmpty(Lower(txs[0].description));
      NoFilterKeepsAll(txs[1..]);
    }
  }

  // The summary totals.

  function SumPoints(txs: seq<Transaction>): int
    decreases txs
  {
    if txs == [] then 0 else txs[0].points + SumPoints(txs[1..])
  }

  /** The entries with status `s`, in order. */
  function WithStatusOnly(txs: seq<Transaction>, s: TxStatus): (r: seq<Transaction>)
    ensures |r| <= |txs|
    decreases txs
  {
    if txs == [] then []
    else if txs[0].status == s then [txs[0]] + WithStatusOnly(txs[1..], s)
    else WithStatusOnly(txs[1..], s)
  }

  /** The status bucket holds exactly the entries with that status. */
  lemma {:induction false} WithStatusOnlyMembers(txs: seq<Transaction>, s: TxStatus)
    ensures forall x :: x in WithStatusOnly(txs, s) <==> x in txs && x.status == s
    decreases txs
  {
    if txs != [] {
      WithStatusOnlyMembers(txs[1..], s);
      assert txs == [txs[0]] + txs[1..];
    }
  }

  /** `totalEarned`: the points of the completed entries. */
  function TotalEarned(txs: seq<Transaction>): int
  {
    SumPoints(WithStatusOnly(txs, Completed))
  }

  /** `pendingPoints`: the points of the pending entries. */
  function PendingPoints(txs: seq<Transaction>): int
  {
    SumPoints(WithStatusOnly(txs, Pending))
  }

  /** Every entry's points land in exactly one status bucket, so the three
      buckets add up to the whole ledger; cancelled points are in neither
      `totalEarned` nor `pendingPoints`. */
  lemma {:induction false} StatusPartition(txs: seq<Transaction>)
    ensures SumPoints(txs) ==
      TotalEarned(txs) + PendingPoints(txs) + SumPoints(WithStatusOnly(txs, Cancelled))
    decreases txs
  {
    if txs != [] {
      StatusPartition(txs[1..]);
    }
  }

  lemma {:induction false} SumNonNegative(txs: seq<Transaction>)
    requires forall i :: 0 <= i < |txs| ==> txs[i].points >= 0
    ensures SumPoints(txs) >= 0
    decreases txs
  {
    if txs != [] {
      SumNonNegative(txs[1..]);
    }
  }

  /** With no negative entries, the two headline totals together never
      exceed the ledger's points. */
  lemma EarnedAndPendingWithinLedger(txs: seq<Transaction>)
    requires forall i :: 0 <= i < |txs| ==> txs[i].points >= 0
    ensures 0 <= TotalEarned(txs) && 0 <= PendingPoints(txs)
    ensures TotalEarned(txs) + PendingPoints(txs) <= SumPoints(txs)
  {
    StatusPartition(txs);
    forall s: TxStatus
      ensures SumPoints(WithStatusOnly(txs, s)) >= 0
    {
      var bucket := WithStatusOnly(txs, s);
      WithStatusOnlyMembers(txs, s);
      assert forall i :: 0 <= i < |bucket| ==> bucket[i] in txs;
      SumNonNegative(bucket);
    }
  }

  /** `totalEarned` is what the status select shows when set to
      "Completed" with no other filter, summed. */
  lemma {:induction false} EarnedIsCompletedView(txs: seq<Transaction>)
    ensures TotalEarned(txs) == SumPoints(Filtered(txs, "", AllTypes, WithStatus(Completed)))
    decreases txs
  {
    if txs != [] {
      IncludesEmpty(Lower(txs[0].description));
      EarnedIsCompletedView(txs[1..]);
    }
  }

  /** A calendar month, as `getMonth()` and `getFullYear()` report it. */
  datatype YearMonth = YearMonth(year: int, month: int)

  /** `thisMonthEarned`: the completed points whose date falls in the
      current month. The clock and the date parsing are outside the model:
      `monthOf` reads a timestamp's local month and `now` is the current
      one. */
  function ThisMonthEarned(txs: seq<Transaction>, monthOf: string -> YearMonth, now: YearMonth): int
    decreases txs
  {
    if txs == [] then 0
    else
      var here := if monthOf(txs[0].date) == now && txs[0].status == Completed then txs[0].points else 0;
      here + ThisMonthEarned(txs[1..], monthOf, now)
  }

  /** With no negative entries this month's earnings are part of
      `totalEarned`. */
  lemma {:induction false} ThisMonthWithinEarned(txs: seq<Transaction>, monthOf: string -> YearMonth, now: YearMonth)
    requires forall i :: 0 <= i < |txs| ==> txs[i].points >= 0
    ensures 0 <= ThisMonthEarned(txs, monthOf, now) <= TotalEarned(txs)
    decreases txs
  {
    if txs != [] {
      ThisMonthWithinEarned(txs[1..], monthOf, now);
    }
  }

  // Row decoration.

  datatype Icon = UsersIcon | DollarSignIcon | GiftIcon | TrendingUpIcon

  /** `getTransactionIcon`. */
  function TransactionIcon(t: TxType): Icon
  {
    match t
    case ReferralSignup => UsersIcon
    case ReferralPurchase => DollarSignIcon
    case LevelBonus => GiftIcon
    case MonthlyBonus => GiftIcon
    case SpecialPromotion => TrendingUpIcon
  }

  /** The two bonus types share the gift icon and no other type has it;
      every other type has an icon of its own. */
  lemma IconsOfTypes(t: TxType, u: TxType)
    ensures TransactionIcon(t) == GiftIcon <==> t == LevelBonus || t == MonthlyBonus
    ensures TransactionIcon(t) == TransactionIcon(u) <==>
      t == u || (TransactionIcon(t) == GiftIcon && TransactionIcon(u) == GiftIcon)
  {
  }

  datatype Colour = Gold | PrimaryColour | AccentColour

  /** The first switch of `getTransactionColor`: a level 1, 2 or 3 picks a
      colour; a missing level, a zero (falsy) level or any other number picks
      none, since the switch has no default. */
  function LevelColour(level: Option<int>): (r: Option<Colour>)
    ensures r.Some? <==> level.Some? && 1 <= level.value <= 3
  {
    if level.Some? && level.value != 0 then
      (if level.value == 1 then Some(Gold)
       else if level.value == 2 then Some(PrimaryColour)
       else if level.value == 3 then Some(AccentColour)
       else None)
    else None
  }

  /** The second switch: the colour by type alone. */
  function TypeColour(t: TxType): Colour
  {
    match t
    case LevelBonus => Gold
    case MonthlyBonus => Gold
    case SpecialPromotion => PrimaryColour
    case _ => AccentColour
  }

  /** `getTransactionColor`: the level's colour when it has one, the type's
      otherwise. */
  function TransactionColour(t: TxType, level: Option<int>): Colour
  {
    match LevelColour(level)
    case Some(c) => c
    case None => TypeColour(t)
  }

  /** A level in 1..3 decides the colour whatever the type, and the three
      levels get three different colours; any other level colours a row as
      if it had none, and then only the two bonus types are gold. */
  lemma LevelTakesPrecedence(t: TxType, u: TxType, level: Option<int>)
    ensures level.Some? && 1 <= level.value <= 3 ==>
      TransactionColour(t, level) == TransactionColour(u, level)
    ensures TransactionColour(t, Some(1)) != TransactionColour(t, Some(2)) &&
      TransactionColour(t, Some(2)) != TransactionColour(t, Some(3)) &&
      TransactionColour(t, Some(1)) != TransactionColour(t, Some(3))
    ensures !(level.Some? && 1 <= level.value <= 3) ==>
      TransactionColour(t, level) == TransactionColour(t, None)
    ensures TransactionColour(t, None) == Gold <==> t == LevelBonus || t == MonthlyBonus
  {
  }

  // The shipped mock ledger.

  function MockTransactions(): seq<Transaction>
  {
    [Transaction("1", ReferralSignup, "Alex Johnson signed up using your referral link", 100,
       Some(10.0), Some("Alex Johnson"), Some(1), "2024-01-15T10:30:00Z", Completed),
     Transaction("2", ReferralPurchase, "Priya Sharma made a purchase", 50,
       Some(25.0), Some("Priya Sharma"), Some(2), "2024-01-14T14:20:00Z", Completed),
     Transaction("3", LevelBonus, "Level 2 achievement bonus", 200,
       Some(20.0), None, None, "2024-01-13T09:15:00Z", Completed),
     Transaction("4", ReferralPurchase, "Kumar Patel completed signup process", 25,
       Some(12.5), Some("Kumar Patel"), Some(3), "2024-01-12T16:45:00Z", Completed),
     Transaction("5", MonthlyBonus, "December monthly achievement bonus", 500,
       Some(50.0), None, None, "2024-01-01T00:00:00Z", Completed),
     Transaction("6", ReferralPurchase, "Sarah Wilson made a premium purchase", 75,
       Some(37.5), Some("Sarah Wilson"), Some(1), "2024-01-10T11:30:00Z", Pending)]
  }

  /** On the mock ledger 875 points are earned: every entry but the last
      is completed. */
  lemma MockEarned()
    ensures TotalEarned(MockTransactions()) == 875
  {
    var m := MockTransactions();
    assert WithStatusOnly(m[5..], Completed) == [];
    assert WithStatusOnly(m[4..], Completed) == [m[4]];
    assert WithStatusOnly(m[3..], Completed) == [m[3], m[4]];
    assert WithStatusOnly(m[2..], Completed) == [m[2], m[3], m[4]];
    assert WithStatusOnly(m[1..], Completed) == [m[1], m[2], m[3], m[4]];
    assert WithStatusOnly(m, Completed) == [m[0], m[1], m[2], m[3], m[4]];
  }

  /** On the mock ledger 75 points are pending: only the last entry is. */
  lemma MockPending()
    ensures PendingPoints(MockTransactions()) == 75
  {
    var m := MockTransactions();
    assert WithStatusOnly(m, Pending) == [m[5]];
  }
}
