/**
 * The session store of server.js (`HistoricalDataManager`): a list of rounds
 * bounded by a capacity, holding each round id once and kept ascending by id,
 * with suffix views, a label count and a trailing-streak count.
 */
module HistoryStore {
  import opened Common

  /** One round as the feed delivers it: its id `phien` and its label `ket_qua`. */
  datatype Session = Session(phien: int, ketQua: string)

  /** Some entry of `h` carries the id `id`. */
  predicate HasPhien(h: seq<Session>, id: int) {
    exists i :: 0 <= i < |h| && h[i].phien == id
  }

  /** Strictly ascending by id, so every id occurs once. */
  predicate Ascending(h: seq<Session>) {
    forall i, j :: 0 <= i < j < |h| ==> h[i].phien < h[j].phien
  }

  /** Non-decreasing by id: what sorting with `(a, b) => a.phien - b.phien` yields. */
  predicate SortedByPhien(h: seq<Session>) {
    forall i, j :: 0 <= i < j < |h| ==> h[i].phien <= h[j].phien
  }

  /**
   * JavaScript's `Array.prototype.slice(start)`: a negative start keeps the
   * last `-start` entries (all of them when there are fewer), a non-negative
   * one drops the first `start`. Either way the result is a suffix of `s`.
   */
  function SliceFrom<T>(s: seq<T>, start: int): (r: seq<T>)
    ensures |r| == if start < 0 then Min(|s|, -start) else Max(|s| - start, 0)
    ensures r == s[|s| - |r|..]
  {
    if start < 0 then s[Max(|s| + start, 0)..] else s[Min(start, |s|)..]
  }

  // ---------------------------------------------------------------------
  // Sorting by id. The source calls the built-in stable sort; a stable
  // insertion sort produces the same order.
  // ---------------------------------------------------------------------

  /** Places `x` after every entry whose id is at most x's. */
  function Insert(s: seq<Session>, x: Session): (r: seq<Session>)
    ensures |r| == |s| + 1
    ensures multiset(r) == multiset(s) + multiset{x}
    ensures forall y :: y in r <==> y == x || y in s
  {
    if s == [] then [x]
    else if x.phien < s[0].phien then [x] + s
    else
      assert s == [s[0]] + s[1..];
      [s[0]] + Insert(s[1..], x)
  }

  lemma {:induction false} InsertSorted(s: seq<Session>, x: Session)
    requires SortedByPhien(s)
    ensures SortedByPhien(Insert(s, x))
  {
    if s != [] && x.phien >= s[0].phien {
      InsertSorted(s[1..], x);
      var r := Insert(s[1..], x);
      forall y | y in r ensures s[0].phien <= y.phien {
        if y != x {
          var i :| 0 <= i < |s[1..]| && s[1..][i] == y;
          assert s[i + 1] == y;
        }
      }
    }
  }

  lemma {:induction false} InsertAscending(s: seq<Session>, x: Session)
    requires Ascending(s) && !HasPhien(s, x.phien)
    ensures Ascending(Insert(s, x))
  {
    if s != [] && x.phien >= s[0].phien {
      assert x.phien != s[0].phien;
      assert !HasPhien(s[1..], x.phien) by {
        forall i | 0 <= i < |s[1..]| ensures s[1..][i].phien != x.phien {
          assert s[1..][i] == s[i + 1];
        }
      }
      InsertAscending(s[1..], x);
      var r := Insert(s[1..], x);
      forall y | y in r ensures s[0].phien < y.phien {
        if y != x {
          var i :| 0 <= i < |s[1..]| && s[1..][i] == y;
          assert s[i + 1] == y;
        }
      }
    }
  }

  /** Stable sort by ascending id. */
  function SortByPhien(s: seq<Session>): (r: seq<Session>)
    ensures |r| == |s|
    ensures SortedByPhien(r)
    ensures multiset(r) == multiset(s)
  {
    if s == [] then []
    else
      assert s == s[..|s| - 1] + [s[|s| - 1]];
      var r := SortByPhien(s[..|s| - 1]);
      InsertSorted(r, s[|s| - 1]);
      Insert(r, s[|s| - 1])
  }

  lemma {:induction false} InsertAtEnd(s: seq<Session>, x: Session)
    requires forall i :: 0 <= i < |s| ==> s[i].phien <= x.phien
    ensures Insert(s, x) == s + [x]
  {
    if s != [] {
      InsertAtEnd(s[1..], x);
      assert [s[0]] + (s[1..] + [x]) == s + [x];
    }
  }

  /** Sorting a list that is already in order leaves it as it is. */
  lemma {:induction false} SortOfSorted(s: seq<Session>)
    requires SortedByPhien(s)
    ensures SortByPhien(s) == s
  {
    if s != [] {
      var p := s[..|s| - 1];
      SortOfSorted(p);
      InsertAtEnd(p, s[|s| - 1]);
      assert p + [s[|s| - 1]] == s;
    }
  }

  // ---------------------------------------------------------------------
  // Admission of a new round: push, then trim, then sort.
  // ---------------------------------------------------------------------

  /** `history.slice(history.length - cap)` when the list holds more than `cap` rounds. */
  function Trim(h: seq<Session>, cap: nat): (r: seq<Session>)
    ensures |r| == Min(|h|, cap)
    ensures r == h[|h| - |r|..]
  {
    if |h| > cap then h[|h| - cap..] else h
  }

  /** The store after a round passed the checks: pushed, trimmed to the capacity, then sorted. */
  function Admit(h: seq<Session>, x: Session, cap: nat): (r: seq<Session>)
    ensures |r| == Min(|h| + 1, cap)
    ensures SortedByPhien(r)
    ensures multiset(r) == multiset(Trim(h + [x], cap))
  {
    SortByPhien(Trim(h + [x], cap))
  }

  /**
   * Admitting a new id keeps the store ascending, unique and within its capacity;
   * the new round always stays (when the capacity is positive); below capacity
   * nothing is lost, and at capacity exactly the round with the smallest id held
   * before is evicted, even when the newcomer's id is smaller still.
   */
  lemma AdmitProperties(h: seq<Session>, x: Session, cap: nat)
    requires Ascending(h) && |h| <= cap && !HasPhien(h, x.phien)
    ensures Ascending(Admit(h, x, cap))
    ensures |Admit(h, x, cap)| == Min(|h| + 1, cap)
    ensures forall y :: y in Admit(h, x, cap) ==> y == x || y in h
    ensures cap > 0 ==> x in Admit(h, x, cap)
    ensures |h| < cap ==> multiset(Admit(h, x, cap)) == multiset(h) + multiset{x}
    ensures 0 < |h| == cap ==>
              multiset(Admit(h, x, cap)) == multiset(h[1..]) + multiset{x} &&
              h[0] !in Admit(h, x, cap) &&
              forall i :: 1 <= i < |h| ==> h[0].phien < h[i].phien
  {
    if cap == 0 {
      assert Trim(h + [x], cap) == [];
    } else {
      var kept := if |h| < cap then h else h[1..];
      AdmitIsInsert(h, x, cap, kept);
      KeptOfHistory(h, x, cap, kept);
      InsertAscending(kept, x);
    }
  }

  /** The entries surviving the trim come from `h`, do not carry x's id, and at capacity lack exactly `h[0]`. */
  lemma KeptOfHistory(h: seq<Session>, x: Session, cap: nat, kept: seq<Session>)
    requires Ascending(h) && |h| <= cap && 0 < cap && !HasPhien(h, x.phien)
    requires kept == if |h| < cap then h else h[1..]
    ensures !HasPhien(kept, x.phien)
    ensures forall y :: y in kept ==> y in h
    ensures 0 < |h| == cap ==> h[0] !in kept && h[0] != x
  {
    if |h| == cap && 0 < |h| {
      assert h == [h[0]] + kept;
      forall y | y in kept
        ensures y in h && y.phien != x.phien && y.phien != h[0].phien
      {
        var i :| 0 <= i < |kept| && kept[i] == y;
        assert h[i + 1] == y;
      }
      assert h[0].phien != x.phien;
    }
  }

  /** Admitting keeps the store valid: ascending, within capacity, and free of the id 0. */
  lemma AdmitKeepsIds(h: seq<Session>, x: Session, cap: nat)
    requires Ascending(h) && |h| <= cap && !HasPhien(h, x.phien)
    requires x.phien != 0 && forall i :: 0 <= i < |h| ==> h[i].phien != 0
    ensures Ascending(Admit(h, x, cap)) && |Admit(h, x, cap)| <= cap
    ensures forall i :: 0 <= i < |Admit(h, x, cap)| ==> Admit(h, x, cap)[i].phien != 0
  {
    AdmitProperties(h, x, cap);
    var a := Admit(h, x, cap);
    forall y | y in h
      ensures y.phien != 0
    {
      var j :| 0 <= j < |h| && h[j] == y;
    }
    forall i | 0 <= i < |a|
      ensures a[i].phien != 0
    {
      assert a[i] in a;
    }
  }

  /** With room for at least one round, admission inserts `x` into the entries that survive the trim. */
  lemma AdmitIsInsert(h: seq<Session>, x: Session, cap: nat, kept: seq<Session>)
    requires Ascending(h) && |h| <= cap && 0 < cap
    requires kept == if |h| < cap then h else h[1..]
    ensures Ascending(kept) && Admit(h, x, cap) == Insert(kept, x)
  {
    var t := h + [x];
    if |h| == cap {
      assert t[|t| - cap..] == kept + [x];
    }
    assert Trim(t, cap) == kept + [x];
    var k1 := kept + [x];
    assert k1[..|k1| - 1] == kept && k1[|k1| - 1] == x;
    assert Ascending(kept) by {
      forall i, j | 0 <= i < j < |kept|
        ensures kept[i].phien < kept[j].phien
      {
        if |h| == cap {
          assert kept[i] == h[i + 1] && kept[j] == h[j + 1];
        }
      }
    }
    SortOfSorted(kept);
  }

  /**
   * Trimming before sorting: with capacity 2 holding ids 5 and 7, adding id 3
   * evicts 5 and keeps the newcomer, so the store is not the two highest ids.
   */
  lemma NewcomerSurvivesEviction()
    ensures Admit([Session(5, TAI), Session(7, XIU)], Session(3, TAI), 2)
            == [Session(3, TAI), Session(7, XIU)]
  {
    var h := [Session(5, TAI), Session(7, XIU)];
    assert Trim(h + [Session(3, TAI)], 2) == [Session(7, XIU), Session(3, TAI)];
    assert [Session(7, XIU), Session(3, TAI)][..1] == [Session(7, XIU)];
    assert [Session(7, XIU)][..0] == [];
  }

  /**
   * Rounds arriving in id order: a round newer than every stored one is
   * appended, and at capacity the oldest round makes room, so the store is a
   * sliding window over the highest ids.
   */
  lemma AdmitNewest(h: seq<Session>, x: Session, cap: nat)
    requires Ascending(h) && |h| <= cap && 0 < cap
    requires forall i :: 0 <= i < |h| ==> h[i].phien < x.phien
    ensures Admit(h, x, cap) == (if |h| < cap then h else h[1..]) + [x]
  {
    var kept := if |h| < cap then h else h[1..];
    AdmitIsInsert(h, x, cap, kept);
    if |h| < cap {
      InsertAtEnd(h, x);
    } else {
      forall i | 0 <= i < |kept|
        ensures kept[i].phien <= x.phien
      {
        assert kept[i] == h[i + 1];
      }
      InsertAtEnd(kept, x);
    }
  }

  // ---------------------------------------------------------------------
  // Counting labels and streaks.
  // ---------------------------------------------------------------------

  /** Number of entries of `s` labelled `resultType`. */
  function CountOf(s: seq<Session>, resultType: string): (n: nat)
    ensures n <= |s|
  {
    if s == [] then 0
    else CountOf(s[..|s| - 1], resultType) + (if s[|s| - 1].ketQua == resultType then 1 else 0)
  }

  /** The two known labels together never outnumber the window. */
  lemma {:induction false} CountsBounded(s: seq<Session>)
    ensures CountOf(s, TAI) + CountOf(s, XIU) <= |s|
  {
    if s != [] {
      CountsBounded(s[..|s| - 1]);
    }
  }

  /** A window carrying one label throughout counts every entry for it and none for any other. */
  lemma {:induction false} CountOfUniform(s: seq<Session>, resultType: string, other: string)
    requires forall i :: 0 <= i < |s| ==> s[i].ketQua == resultType
    requires other != resultType
    ensures CountOf(s, resultType) == |s| && CountOf(s, other) == 0
  {
    if s != [] {
      CountOfUniform(s[..|s| - 1], resultType, other);
    }
  }

  /** The result of `calculateFrequency`. */
  datatype Frequency = Frequency(taiCount: nat, xiuCount: nat, totalCount: nat, taiRatio: real, xiuRatio: real)

  const NoFrequency: Frequency := Frequency(0, 0, 0, 0.0, 0.0)

  /** Label counts of a window and their shares of its length. */
  function FrequencyOf(s: seq<Session>): (f: Frequency)
    ensures |s| == 0 ==> f == NoFrequency
    ensures f.totalCount == |s|
    ensures f.taiCount == CountOf(s, TAI) && f.xiuCount == CountOf(s, XIU)
    ensures f.taiCount + f.xiuCount <= f.totalCount
    ensures |s| > 0 ==> f.taiRatio == Share(f.taiCount, |s|) && f.xiuRatio == Share(f.xiuCount, |s|)
    ensures 0.0 <= f.taiRatio && 0.0 <= f.xiuRatio && f.taiRatio + f.xiuRatio <= 1.0
  {
    if |s| == 0 then NoFrequency
    else
      var t, x := CountOf(s, TAI), CountOf(s, XIU);
      CountsBounded(s);
      var n := |s|;
      SharesBounded(t, x, n);
      Frequency(t, x, n, Share(t, n), Share(x, n))
  }

  /** `count / total` as an exact rational. */
  function Share(count: nat, total: nat): real
    requires total > 0
  {
    (count as real) / (total as real)
  }

  lemma SharesBounded(t: nat, x: nat, n: nat)
    requires 0 < n && t + x <= n
    ensures 0.0 <= Share(t, n) && 0.0 <= Share(x, n) && Share(t, n) + Share(x, n) <= 1.0
  {
    var N := n as real;
    assert (t as real) / N + (x as real) / N == ((t + x) as real) / N;
    assert ((t + x) as real) <= N;
  }

  /** Length of the run of `resultType` at the end of `s`. */
  function TrailingRun(s: seq<Session>, resultType: string): (k: nat)
    ensures k <= |s|
    ensures forall i :: |s| - k <= i < |s| ==> s[i].ketQua == resultType
    ensures k < |s| ==> s[|s| - 1 - k].ketQua != resultType
  {
    if s == [] || s[|s| - 1].ketQua != resultType then 0
    else 1 + TrailingRun(s[..|s| - 1], resultType)
  }

  /** Oldest to newest Xỉu, Xỉu, Xỉu, Tài: the Tài run is 1 long, and there is no trailing Xỉu run. */
  lemma TrailingRunExample()
    ensures var w := [Session(1, XIU), Session(2, XIU), Session(3, XIU), Session(4, TAI)];
            TrailingRun(w, TAI) == 1 && TrailingRun(w, XIU) == 0
  {
    var w := [Session(1, XIU), Session(2, XIU), Session(3, XIU), Session(4, TAI)];
    assert w[2].ketQua != TAI && w[3].ketQua != XIU;
  }

  // ---------------------------------------------------------------------
  // The store object.
  // ---------------------------------------------------------------------

  class HistoricalDataManager {
    var history: seq<Session>
    const maxHistoryLength: nat

    /** Ids unique, ascending, never 0 (rejected as falsy), and the capacity respected. */
    ghost predicate Valid()
      reads this
    {
      && Ascending(history)
      && |history| <= maxHistoryLength
      && forall i :: 0 <= i < |history| ==> history[i].phien != 0
    }

    constructor (maxHistoryLength: nat)
      ensures Valid()
      ensures history == [] && this.maxHistoryLength == maxHistoryLength
    {
      history := [];
      this.maxHistoryLength := maxHistoryLength;
    }

    /**
     * Rejects a missing record, a falsy id (0) and an id already held; otherwise
     * pushes the record, keeps the last `maxHistoryLength` entries and sorts.
     */
    method AddSession(newData: Option<Session>) returns (added: bool)
      requires Valid()
      modifies this
      ensures Valid()
      ensures added <==> newData.Some? && newData.value.phien != 0
                         && !HasPhien(old(history), newData.value.phien)
      ensures !added ==> history == old(history)
      ensures added ==> history == Admit(old(history), newData.value, maxHistoryLength)
      ensures added && maxHistoryLength > 0 ==> newData.value in history
      ensures added ==> |history| == Min(|old(history)| + 1, maxHistoryLength)
      ensures added && |old(history)| < maxHistoryLength ==>
                multiset(history) == multiset(old(history)) + multiset{newData.value}
      ensures added && 0 < |old(history)| == maxHistoryLength ==>
                multiset(history) == multiset(old(history)[1..]) + multiset{newData.value}
                && old(history)[0] !in history
    {
      if newData.None? || newData.value.phien == 0 {
        return false;
      }
      if HasPhien(history, newData.value.phien) {
        return false;
      }
      ghost var before := history;
      AdmitProperties(before, newData.value, maxHistoryLength);
      Push(newData.value);
      return true;
    }

    /** The accepting branch of `addSession`: push, keep the last `maxHistoryLength`, sort by id. */
    method Push(x: Session)
      requires Valid() && x.phien != 0 && !HasPhien(history, x.phien)
      modifies this
      ensures Valid()
      ensures history == Admit(old(history), x, maxHistoryLength)
    {
      ghost var before := history;
      AdmitKeepsIds(before, x, maxHistoryLength);
      var pushed := history + [x];
      var kept := pushed;
      if |pushed| > maxHistoryLength {
        kept := pushed[|pushed| - maxHistoryLength..];
      }
      assert kept == Trim(pushed, maxHistoryLength);
      history := SortByPhien(kept);
    }

    /** A copy of the whole store, ascending by id. */
    function GetHistory(): (copy: seq<Session>)
      reads this
      ensures copy == history
    {
      history
    }

    /**
     * `history.slice(-count)`: the last `count` entries for a positive count;
     * `-0` is `0`, so a zero count gives the whole store, and a negative count
     * drops that many entries from the front.
     */
    function GetRecentHistory(count: int): (r: seq<Session>)
      reads this
      ensures count > 0 ==> |r| == Min(count, |history|) && r == history[|history| - |r|..]
      ensures count == 0 ==> r == history
      ensures count < 0 ==> r == history[Min(-count, |history|)..]
    {
      SliceFrom(history, -count)
    }

    /** Counts both labels in one pass; an empty window gives all zeros. */
    method CalculateFrequency(dataSubset: seq<Session>) returns (f: Frequency)
      ensures f == FrequencyOf(dataSubset)
      ensures f.taiCount + f.xiuCount <= f.totalCount == |dataSubset|
    {
      if |dataSubset| == 0 {
        return NoFrequency;
      }
      var taiCount, xiuCount := 0, 0;
      for i := 0 to |dataSubset|
        invariant taiCount == CountOf(dataSubset[..i], TAI)
        invariant xiuCount == CountOf(dataSubset[..i], XIU)
      {
        assert dataSubset[..i + 1][..i] == dataSubset[..i];
        if dataSubset[i].ketQua == TAI {
          taiCount := taiCount + 1;
        } else if dataSubset[i].ketQua == XIU {
          xiuCount := xiuCount + 1;
        }
      }
      assert dataSubset[..|dataSubset|] == dataSubset;
      var totalCount := |dataSubset|;
      f := Frequency(taiCount, xiuCount, totalCount,
                     (taiCount as real) / (totalCount as real),
                     (xiuCount as real) / (totalCount as real));
    }

    /** Scans backward from the newest entry, counting entries labelled `resultType`. */
    method CalculateCurrentSequence(dataSubset: seq<Session>, resultType: string) returns (count: nat)
      ensures count == TrailingRun(dataSubset, resultType)
    {
      if |dataSubset| == 0 {
        return 0;
      }
      count := 0;
      var i := |dataSubset| - 1;
      assert dataSubset[..i + 1] == dataSubset;
      while i >= 0
        invariant -1 <= i < |dataSubset|
        invariant count + TrailingRun(dataSubset[..i + 1], resultType) == TrailingRun(dataSubset, resultType)
      {
        var prefix := dataSubset[..i + 1];
        assert prefix[i] == dataSubset[i] && prefix[..i] == dataSubset[..i];
        if dataSubset[i].ketQua == resultType {
          count := count + 1;
        } else {
          break;
        }
        i := i - 1;
      }
    }
  }
}
