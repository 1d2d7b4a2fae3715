/** The reward claim centre: the rewards on offer, the set of rewards claimed
    in this session, and the point totals shown above the tabs. */
module RewardsClaimCenter {
  import opened Wrappers

  datatype RewardType = PointsReward | CashReward | BonusReward | MilestoneReward

  datatype Currency = Points | Usd

  datatype RewardStatus = Available | PendingApproval | Claimed | Locked

  /** One reward card's data; the icon and gradient are presentation only. */
  datatype Reward = Reward(
    id: string,
    rewardType: RewardType,
    title: string,
    description: string,
    amount: real,
    currency: Currency,
    status: RewardStatus,
    expiresAt: Option<string>,
    requirement: Option<string>)

  /** A reward's worth in points: points at face value, dollars at ten points
      each. */
  function PointValue(r: Reward): (v: real)
    ensures r.amount >= 0.0 ==> r.amount <= v
    ensures v == r.amount <==> r.currency == Points || r.amount == 0.0
  {
    if r.currency == Points then r.amount else r.amount * 10.0
  }

  /** `isClaimable` on a card: only an available reward shows "Claim Now". */
  predicate IsClaimable(r: Reward)
  {
    r.status == Available
  }

  function Ids(rewards: seq<Reward>): set<string>
    decreases rewards
  {
    if rewards == [] then {} else {rewards[0].id} + Ids(rewards[1..])
  }

  /** No two rewards of the list share an id (the list's React keys). */
  predicate DistinctIds(rewards: seq<Reward>)
  {
    forall i, j :: 0 <= i < j < |rewards| ==> rewards[i].id != rewards[j].id
  }

  /** The rewards of the list whose id has not been claimed, in order: the
      cards of the "Available" tab. */
  function Unclaimed(rewards: seq<Reward>, claimed: set<string>): (r: seq<Reward>)
    ensures |r| <= |rewards|
    decreases rewards
  {
    if rewards == [] then []
    else if rewards[0].id in claimed then Unclaimed(rewards[1..], claimed)
    else [rewards[0]] + Unclaimed(rewards[1..], claimed)
  }

  /** A reward is on the "Available" tab exactly when it is on offer and its
      id is not claimed. */
  lemma {:induction false} UnclaimedMembers(rewards: seq<Reward>, claimed: set<string>)
    ensures forall r :: r in Unclaimed(rewards, claimed) <==> r in rewards && r.id !in claimed
    decreases rewards
  {
    if rewards != [] {
      UnclaimedMembers(rewards[1..], claimed);
      assert rewards == [rewards[0]] + rewards[1..];
    }
  }

  function SumValue(rewards: seq<Reward>): real
    decreases rewards
  {
    if rewards == [] then 0.0 else PointValue(rewards[0]) + SumValue(rewards[1..])
  }

  /** `totalAvailable`: the point value of the unclaimed available rewards. */
  function TotalAvailable(available: seq<Reward>, claimed: set<string>): real
  {
    SumValue(Unclaimed(available, claimed))
  }

  /** `totalPending`: the point value of the pending rewards. It is computed
      from the pending list alone, so no claim can change it. */
  function TotalPending(pending: seq<Reward>): real
  {
    SumValue(pending)
  }

  /** The "Available (n)" figure. */
  function AvailableCount(available: seq<Reward>, claimed: set<string>): nat
  {
    |Unclaimed(available, claimed)|
  }

  /** "All caught up!" shows when the available count is zero, which is
      exactly when every available reward's id has been claimed. */
  lemma {:induction false} AllCaughtUpIff(available: seq<Reward>, claimed: set<string>)
    ensures AvailableCount(available, claimed) == 0 <==>
            forall i :: 0 <= i < |available| ==> available[i].id in claimed
    decreases available
  {
    if available != [] {
      AllCaughtUpIff(available[1..], claimed);
      assert forall i :: 1 <= i < |available| ==> available[i] == available[1..][i - 1];
    }
  }

  /** With distinct ids the available count is the number of available
      rewards less the number of them already claimed. */
  lemma {:induction false} AvailableCountIsDifference(available: seq<Reward>, claimed: set<string>)
    requires DistinctIds(available)
    ensures AvailableCount(available, claimed) == |available| - |claimed * Ids(available)|
    decreases available
  {
    if available != [] {
      var head, rest := available[0], available[1..];
      DistinctTail(available);
      AvailableCountIsDifference(rest, claimed);
      if head.id in claimed {
        assert claimed * Ids(available) == (claimed * Ids(rest)) + {head.id};
      } else {
        assert claimed * Ids(available) == claimed * Ids(rest);
      }
    }
  }

  /** Dropping the first reward of a list with distinct ids leaves distinct
      ids, none of them the first reward's. */
  lemma DistinctTail(rewards: seq<Reward>)
    requires rewards != [] && DistinctIds(rewards)
    ensures DistinctIds(rewards[1..])
    ensures rewards[0].id !in Ids(rewards[1..])
  {
    var rest := rewards[1..];
    assert forall i :: 0 <= i < |rest| ==> rest[i] == rewards[i + 1];
    IdsMembers(rest);
  }

  lemma {:induction false} IdsMembers(rewards: seq<Reward>)
    ensures forall id :: id in Ids(rewards) <==> exists i :: 0 <= i < |rewards| && rewards[i].id == id
    decreases rewards
  {
    if rewards != [] {
      IdsMembers(rewards[1..]);
      assert forall i :: 1 <= i < |rewards| ==> rewards[i] == rewards[1..][i - 1];
      assert forall i :: 0 <= i < |rewards| - 1 ==> rewards[1..][i] == rewards[i + 1];
    }
  }

  /** Claiming the id of one unclaimed available reward, when ids are
      distinct, lowers `totalAvailable` by exactly that reward's point
      value. */
  lemma {:induction false} ClaimLowersTotal(available: seq<Reward>, claimed: set<string>, k: nat)
    requires DistinctIds(available) && k < |available| && available[k].id !in claimed
    ensures TotalAvailable(available, claimed + {available[k].id}) ==
            TotalAvailable(available, claimed) - PointValue(available[k])
    decreases available
  {
    var id := available[k].id;
    var rest := available[1..];
    DistinctTail(available);
    if k == 0 {
      ClaimOfAbsentId(rest, claimed, id);
    } else {
      assert rest[k - 1] == available[k];
      ClaimLowersTotal(rest, claimed, k - 1);
      assert available[0].id != id;
    }
  }

  /** Claiming an id that no reward of the list carries leaves the total
      alone. */
  lemma {:induction false} ClaimOfAbsentId(available: seq<Reward>, claimed: set<string>, id: string)
    requires id !in Ids(available)
    ensures TotalAvailable(available, claimed + {id}) == TotalAvailable(available, claimed)
    decreases available
  {
    if available != [] {
      ClaimOfAbsentId(available[1..], claimed, id);
    }
  }

  /** With no negative amounts, claiming more never raises
      `totalAvailable`. */
  lemma {:induction false} ClaimNeverRaises(available: seq<Reward>, c1: set<string>, c2: set<string>)
    requires forall i :: 0 <= i < |available| ==> available[i].amount >= 0.0
    requires c1 <= c2
    ensures 0.0 <= TotalAvailable(available, c2) <= TotalAvailable(available, c1)
    decreases available
  {
    if available != [] {
      ClaimNeverRaises(available[1..], c1, c2);
    }
  }

  /** The claim state of the page. */
  class ClaimCenter {
    const available: seq<Reward>
    const pending: seq<Reward>
    var claimedRewards: set<string>

    /** Every claimed id belongs to a reward that shows a "Claim Now"
        button. */
    predicate Valid()
      reads this
    {
      forall id :: id in claimedRewards ==>
        exists i :: 0 <= i < |available| && available[i].id == id && IsClaimable(available[i])
    }

    /** Nothing is claimed when the page opens. */
    constructor (available: seq<Reward>, pending: seq<Reward>)
      ensures this.available == available && this.pending == pending
      ensures claimedRewards == {}
      ensures Valid()
    {
      this.available := available;
      this.pending := pending;
      claimedRewards := {};
    }

    /** `handleClaim`: the claimed set grows by `rewardId` and nothing else
        changes; a second claim of the same id changes nothing. Its one
        caller passes the id of a claimable reward on offer, so the claim
        invariant is kept. */
    method HandleClaim(rewardId: string)
      requires Valid()
      requires exists i :: 0 <= i < |available| && available[i].id == rewardId && IsClaimable(available[i])
      modifies this
      ensures Valid()
      ensures claimedRewards == old(claimedRewards) + {rewardId}
      ensures old(rewardId in claimedRewards) ==> claimedRewards == old(claimedRewards)
    {
      claimedRewards := claimedRewards + {rewardId};
    }

    /** The cards of the "Available" tab. */
    function Cards(): seq<Reward>
      reads this
    {
      Unclaimed(available, claimedRewards)
    }

    /** Pressing "Claim Now" on the `k`-th card of the "Available" tab; the
        button exists only on a claimable card. The claim keeps every
        claimed id tied to a claimable reward and, with distinct ids, takes
        that card's value off the total. */
    method ClaimCard(k: nat)
      requires Valid() && k < |Cards()| && IsClaimable(Cards()[k])
      modifies this
      ensures Valid()
      ensures claimedRewards == old(claimedRewards) + {old(Cards()[k].id)}
      ensures ClaimedToday() == old(ClaimedToday()) + 1
      ensures DistinctIds(available) ==>
        AvailableTotal() == old(AvailableTotal()) - PointValue(old(Cards()[k]))
    {
      var reward := Cards()[k];
      UnclaimedMembers(available, claimedRewards);
      assert reward in available && reward.id !in claimedRewards;
      var j :| 0 <= j < |available| && available[j] == reward;
      if DistinctIds(available) {
        ClaimLowersTotal(available, claimedRewards, j);
      }
      HandleClaim(reward.id);
    }

    /** The "Available to Claim" figure. */
    function AvailableTotal(): real
      reads this
    {
      TotalAvailable(available, claimedRewards)
    }

    /** The "Claimed Today" figure: how many ids have been claimed. */
    function ClaimedToday(): nat
      reads this
    {
      |claimedRewards|
    }
  }

  // The shipped mock rewards.

  function MockAvailableRewards(): seq<Reward>
  {
    [Reward("1", PointsReward, "Referral Bonus", "Alex Johnson signup bonus", 100.0, Points, Available, None, None),
     Reward("2", CashReward, "Monthly Earnings", "December commission payout", 125.5, Usd, Available, None, None),
     Reward("3", BonusReward, "Level Up Bonus", "Reached Gold tier rewards", 500.0, Points, Available, None, None)]
  }

  function MockPendingRewards(): seq<Reward>
  {
    [Reward("4", PointsReward, "Purchase Commission", "Priya Sharma purchase (pending approval)", 50.0, Points,
       PendingApproval, Some("2024-01-20"), None)]
  }

  /** On the mock lists: 1855 points available before any claim (the
      dollar payout counts 1255), 50 pending, and 600 left once the payout
      is claimed. */
  lemma MockTotals()
    ensures TotalAvailable(MockAvailableRewards(), {}) == 1855.0
    ensures TotalPending(MockPendingRewards()) == 50.0
    ensures TotalAvailable(MockAvailableRewards(), {"2"}) == 600.0
  {
    var m := MockAvailableRewards();
    assert Unclaimed(m, {"2"}) == [m[0], m[2]];
  }
}
