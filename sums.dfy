/**
 * The three-dice sum table of the advanced predictor: how many of the 216
 * ordered throws of three six-sided dice give each sum.
 */
module DiceSums {

  /** Ways for one die to show `s`. */
  function Die(s: int): (n: nat)
    ensures n <= 1
    ensures n == 1 <==> 1 <= s <= 6
  {
    if 1 <= s <= 6 then 1 else 0
  }

  /** Ways for two dice to show `s` when the first die shows less than `upto`. */
  function TwoDice(s: int, upto: int): nat
    decreases upto
  {
    if upto <= 1 then 0 else TwoDice(s, upto - 1) + Die(s - (upto - 1))
  }

  /** Ways for three dice to show `s` when the first die shows less than `upto`. */
  function ThreeDice(s: int, upto: int): nat
    decreases upto
  {
    if upto <= 1 then 0 else ThreeDice(s, upto - 1) + TwoDice(s - (upto - 1), 7)
  }

  /** Ways for three dice to show the sum `s`. */
  function Ways(s: int): nat { ThreeDice(s, 7) }

  /** The table the three loops produce, for sums 3 to 18. */
  const SumTable: seq<nat> := [1, 3, 6, 10, 15, 21, 25, 27, 27, 25, 21, 15, 10, 6, 3, 1]

  /** Ways for two dice to show `s`: rising from 1 at 2 to 6 at 7, then falling to 1 at 12. */
  function TwoDiceWays(s: int): nat {
    if 2 <= s <= 7 then s - 1 else if 8 <= s <= 12 then 13 - s else 0
  }

  lemma TwoDiceClosed(s: int)
    ensures TwoDice(s, 7) == TwoDiceWays(s)
  {
    assert TwoDice(s, 3) == Die(s - 1) + Die(s - 2);
    assert TwoDice(s, 5) == TwoDice(s, 3) + Die(s - 3) + Die(s - 4);
    assert TwoDice(s, 7) == TwoDice(s, 5) + Die(s - 5) + Die(s - 6);
  }

  /** Three dice, split on the value of the first die. */
  function FirstDieSplit(s: int): nat {
    TwoDiceWays(s - 1) + TwoDiceWays(s - 2) + TwoDiceWays(s - 3) +
    TwoDiceWays(s - 4) + TwoDiceWays(s - 5) + TwoDiceWays(s - 6)
  }

  lemma WaysSplit(s: int)
    ensures Ways(s) == FirstDieSplit(s)
  {
    TwoDiceClosed(s - 1); TwoDiceClosed(s - 2); TwoDiceClosed(s - 3);
    TwoDiceClosed(s - 4); TwoDiceClosed(s - 5); TwoDiceClosed(s - 6);
    assert ThreeDice(s, 3) == TwoDice(s - 1, 7) + TwoDice(s - 2, 7);
    assert ThreeDice(s, 5) == ThreeDice(s, 3) + TwoDice(s - 3, 7) + TwoDice(s - 4, 7);
    assert ThreeDice(s, 7) == ThreeDice(s, 5) + TwoDice(s - 5, 7) + TwoDice(s - 6, 7);
  }

  lemma SplitTable(s: int)
    ensures 3 <= s <= 18 ==> FirstDieSplit(s) == SumTable[s - 3]
    ensures !(3 <= s <= 18) ==> FirstDieSplit(s) == 0
  {
  }

  /** The reference count agrees with the table, and is zero outside 3..18. */
  lemma WaysTable(s: int)
    ensures 3 <= s <= 18 ==> Ways(s) == SumTable[s - 3]
    ensures !(3 <= s <= 18) ==> Ways(s) == 0
  {
    WaysSplit(s);
    SplitTable(s);
  }

  /** The number of ordered throws the source divides by. */
  const TotalOutcomes: nat := 216

  /** Sum of `SumTable[i..]`. */
  function TableFrom(i: nat): nat
    requires i <= |SumTable|
    decreases |SumTable| - i
  {
    if i == |SumTable| then 0 else SumTable[i] + TableFrom(i + 1)
  }

  /**
   * Every throw is counted once: the table adds up to `totalOutcomes`, and
   * exactly half of the throws land on Tài (sums 11 to 18, from index 8 on).
   */
  lemma TableTotals()
    ensures TableFrom(0) == TotalOutcomes
    ensures TableFrom(8) * 2 == TotalOutcomes
  {
    assert TableFrom(12) == 20;
    assert TableFrom(8) == 108;
    assert TableFrom(4) == 196;
  }

  /** The counts a map holds for the sums `s` to 18, an absent sum counting 0. */
  function CountsFrom(m: map<int, nat>, s: int): nat
    decreases 19 - s
  {
    if s > 18 then 0 else (if s in m then m[s] else 0) + CountsFrom(m, s + 1)
  }

  /** A map holding the table's counts for 3 to 18 adds up like the table. */
  lemma {:induction false} CountsFromTable(m: map<int, nat>, s: int)
    requires 3 <= s <= 19
    requires forall k :: 3 <= k <= 18 ==> k in m && m[k] == SumTable[k - 3]
    ensures CountsFrom(m, s) == TableFrom(s - 3)
    decreases 19 - s
  {
    if s <= 18 {
      CountsFromTable(m, s + 1);
    }
  }

  /** The distribution is symmetric: sums `s` and `t` with `s + t == 21` are equally likely. */
  lemma WaysSymmetric(s: int, t: int)
    requires s + t == 21
    ensures Ways(s) == Ways(t)
  {
    SplitSymmetric(s, t);
    SameSplitSameWays(s, t);
  }

  /** Sums with the same first-die split are reached by equally many throws. */
  lemma SameSplitSameWays(s: int, t: int)
    requires FirstDieSplit(s) == FirstDieSplit(t)
    ensures Ways(s) == Ways(t)
  {
    WaysSplit(s);
    WaysSplit(t);
  }

  /** Mirroring every die (`d` to `7 - d`) maps the sum `s` to `21 - s`. */
  lemma SplitSymmetric(s: int, t: int)
    requires s + t == 21
    ensures FirstDieSplit(s) == FirstDieSplit(t)
  {
  }

  /** The counts of throws seen so far: first die below `d1`, then second below `d2`, then third below `d3`. */
  function Seen(s: int, d1: int, d2: int, d3: int): nat
  {
    ThreeDice(s, d1) + TwoDice(s - d1, d2) + (if 1 <= s - d1 - d2 < d3 then 1 else 0)
  }

  /** `sumCounts` holds exactly the sums with a positive count, each with its count. */
  ghost predicate Tabulates(sumCounts: map<int, nat>, d1: int, d2: int, d3: int)
  {
    forall s :: (s in sumCounts <==> Seen(s, d1, d2, d3) > 0) && (s in sumCounts ==> sumCounts[s] == Seen(s, d1, d2, d3))
  }

  /** Counting one more throw `(d1, d2, d3)` moves the third die on. */
  lemma CountThrow(before: map<int, nat>, after: map<int, nat>, d1: int, d2: int, d3: int)
    requires Tabulates(before, d1, d2, d3) && 1 <= d3
    requires var sum := d1 + d2 + d3; after == before[sum := (if sum in before then before[sum] else 0) + 1]
    ensures Tabulates(after, d1, d2, d3 + 1)
  {
    var sum := d1 + d2 + d3;
    forall s
      ensures Seen(s, d1, d2, d3 + 1) == Seen(s, d1, d2, d3) + (if s == sum then 1 else 0)
    {
    }
  }

  /** A finished third die is one more value of the second. */
  lemma NextSecond(d1: int, d2: int)
    requires 1 <= d2
    ensures forall s :: Seen(s, d1, d2, 7) == Seen(s, d1, d2 + 1, 1)
  {
  }

  /** A finished second die is one more value of the first. */
  lemma NextFirst(d1: int)
    requires 1 <= d1
    ensures forall s :: Seen(s, d1, 7, 1) == Seen(s, d1 + 1, 1, 1)
  {
  }

  /** Once every throw is counted, the table holds the sums 3 to 18 with their reference counts. */
  lemma AllThrowsSeen(sumCounts: map<int, nat>)
    requires Tabulates(sumCounts, 7, 1, 1)
    ensures forall s :: s in sumCounts <==> 3 <= s <= 18
    ensures forall s :: s in sumCounts ==> sumCounts[s] == Ways(s)
  {
    forall s
      ensures s in sumCounts <==> 3 <= s <= 18
      ensures s in sumCounts ==> sumCounts[s] == Ways(s)
    {
      WaysTable(s);
      assert Seen(s, 7, 1, 1) == Ways(s);
    }
  }

  /** A table holding the reference count of every sum 3 to 18, as `TrueSumCounts` returns, counts all 216 throws. */
  lemma CountsTotal(sumCounts: map<int, nat>)
    requires forall s :: s in sumCounts <==> 3 <= s <= 18
    requires forall s :: s in sumCounts ==> sumCounts[s] == Ways(s)
    ensures CountsFrom(sumCounts, 3) == TotalOutcomes
  {
    forall k | 3 <= k <= 18
      ensures k in sumCounts && sumCounts[k] == SumTable[k - 3]
    {
      WaysTable(k);
    }
    CountsFromTable(sumCounts, 3);
    TableTotals();
  }

  /** The innermost loop: the six throws with the first two dice fixed at `d1` and `d2`. */
  method CountThirdDie(counts: map<int, nat>, d1: int, d2: int) returns (sumCounts: map<int, nat>)
    requires Tabulates(counts, d1, d2, 1)
    ensures Tabulates(sumCounts, d1, d2, 7)
  {
    sumCounts := counts;
    for d3 := 1 to 7
      invariant Tabulates(sumCounts, d1, d2, d3)
    {
      var sum := d1 + d2 + d3;
      ghost var before := sumCounts;
      var n: nat := (if sum in sumCounts then sumCounts[sum] else 0) + 1;
      sumCounts := sumCounts[sum := n];
      CountThrow(before, sumCounts, d1, d2, d3);
    }
  }

  /**
   * The loops of `getTrueSumProbabilities`: every ordered throw adds one to
   * the entry of its sum, creating the entry on first sight.
   */
  method TrueSumCounts() returns (sumCounts: map<int, nat>)
    ensures forall s :: s in sumCounts <==> 3 <= s <= 18
    ensures forall s :: s in sumCounts ==> sumCounts[s] == Ways(s)
  {
    sumCounts := map[];
    for d1 := 1 to 7
      invariant Tabulates(sumCounts, d1, 1, 1)
    {
      for d2 := 1 to 7
        invariant Tabulates(sumCounts, d1, d2, 1)
      {
        sumCounts := CountThirdDie(sumCounts, d1, d2);
        NextSecond(d1, d2);
      }
      NextFirst(d1);
    }
    AllThrowsSeen(sumCounts);
  }
}
