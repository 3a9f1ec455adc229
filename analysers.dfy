/**
 * The three analysers of server1.js. Each reads the classified rounds,
 * newest first, and either abstains or names the next size code with an
 * integer certainty.
 */
module Analysers {
  import opened Common
  import opened RoundStatus

  /** Which description an analyser attaches to its result. */
  datatype Note =
    | MarkovTooShort
    | MarkovStreak(streak: nat)
    | MarkovLongStreak(streak: nat)
    | MarkovChain(lastTwo: (TX, TX), predicted: TX)
    | MarkovNoPattern
    | BalanceTooShort
    | BalanceShortTerm
    | BalanceLongTerm
    | BalanceSteady
    | HeuristicTooShort
    | Heuristic321
    | Heuristic112
    | HeuristicNoPattern

  /** `{ prediction, certainty, description }`; a missing prediction is JavaScript's `null`. */
  datatype Analysis = Analysis(prediction: Option<TX>, certainty: nat, description: Note)

  // ---------------------------------------------------------------------
  // Rounding.
  // ---------------------------------------------------------------------

  /**
   * `Math.round(x / t * 100)` on exact rationals: the integer `r` with
   * `r <= 100x/t + 1/2 < r + 1`, i.e. the nearest integer, halves rounded up.
   */
  function RoundPercent(x: nat, t: nat): (r: nat)
    requires t > 0
    ensures (r as real) * (t as real) <= 100.0 * (x as real) + 0.5 * (t as real) < (r as real + 1.0) * (t as real)
  {
    var n := 200 * x + t;
    var m := 2 * t;
    var q := n / m;
    assert q * m <= n < q * m + m;
    MulReal(q, m);
    MulReal(q + 1, m);
    MulReal(n, 1);
    q
  }

  /** Integer products carry over to reals. */
  lemma MulReal(a: int, b: int)
    ensures (a * b) as real == (a as real) * (b as real)
  {
  }

  /** The larger of two counts is at least half and at most all of their total: the percentage lies in [50, 100]. */
  lemma RoundPercentOfMajority(x: nat, t: nat)
    requires t > 0 && t <= 2 * x && x <= t
    ensures 50 <= RoundPercent(x, t) <= 100
  {
    var r := RoundPercent(x, t);
    var n := 200 * x + t;
    assert r * (2 * t) <= n < r * (2 * t) + 2 * t;
    var m: nat := 2 * t;
    // 101 * m would exceed n if r were above 100; 50 * m would not fit below n if r were under 50.
    MulMonotone(101, Max(r, 101), m);
    MulMonotone(Min(r + 1, 50), 50, m);
  }

  /** Multiplying by a non-negative integer keeps an inequality. */
  lemma MulMonotone(a: int, b: int, c: nat)
    requires a <= b
    ensures a * c <= b * c
  {
    assert b * c - a * c == (b - a) * c;
  }

  /** One side holding the whole total rounds to exactly 100. */
  lemma RoundPercentOfAll(t: nat)
    requires t > 0
    ensures RoundPercent(t, t) == 100
  {
    RoundPercentOfMajority(t, t);
    var r := RoundPercent(t, t);
    assert r * (2 * t) <= 200 * t + t < r * (2 * t) + 2 * t;
    var m: nat := 2 * t;
    MulMonotone(Min(r + 1, 100), 100, m);
  }

  // ---------------------------------------------------------------------
  // Model 1: streak scan and Markov chain.
  // ---------------------------------------------------------------------

  /**
   * The streak loop past index `i`: the entries from `i` on, below index 15,
   * that repeat the newest code, counted up to the first one that differs.
   */
  function RunFrom(sh: seq<Status>, i: nat): (k: nat)
    requires 1 <= i && |sh| > 0
    ensures i + k <= Max(i, Min(|sh|, 15))
    ensures forall j :: i <= j < i + k ==> sh[j].taixiu == sh[0].taixiu
    ensures i + k < Min(|sh|, 15) ==> sh[i + k].taixiu != sh[0].taixiu
    decreases |sh| - i
  {
    if i < |sh| && i < 15 && sh[i].taixiu == sh[0].taixiu then 1 + RunFrom(sh, i + 1) else 0
  }

  /**
   * `streakCount`: the length of the run of the newest code at the head of
   * the history, never more than 15 (nor more than the history).
   */
  function Streak(sh: seq<Status>): (k: nat)
    requires |sh| > 0
    ensures 1 <= k <= Min(|sh|, 15)
    ensures forall j :: 0 <= j < k ==> sh[j].taixiu == sh[0].taixiu
    ensures k < Min(|sh|, 15) ==> sh[k].taixiu != sh[0].taixiu
  {
    1 + RunFrom(sh, 1)
  }

  /**
   * How many `i` in `2 .. n-1` have the pair `(a, b)` at `i-2, i-1` followed
   * by `next` at `i`: the entry `transitions[a + b][next]` after the loop has
   * seen `n` rounds.
   */
  function TransitionCount(sh: seq<Status>, n: nat, a: TX, b: TX, next: TX): (c: nat)
    requires n <= |sh|
    ensures c <= Max(0, n - 2)
  {
    if n <= 2 then 0
    else TransitionCount(sh, n - 1, a, b, next)
         + (if sh[n - 3].taixiu == a && sh[n - 2].taixiu == b && sh[n - 1].taixiu == next then 1 else 0)
  }

  /** `{ T: …, X: … }`, one entry of the transition table. */
  datatype Counts = Counts(t: nat, x: nat)

  /** `transitions[key][nextState]++`. */
  function Bump(c: Counts, next: TX): (d: Counts)
    ensures d.t + d.x == c.t + c.x + 1
  {
    if next == T then c.(t := c.t + 1) else c.(x := c.x + 1)
  }

  /** The table holds exactly the pairs seen in the first `n` rounds, each with its counts. */
  ghost predicate Tracks(transitions: map<(TX, TX), Counts>, sh: seq<Status>, n: nat)
    requires n <= |sh|
  {
    forall a: TX, b: TX ::
      ((a, b) in transitions <==> TransitionCount(sh, n, a, b, T) + TransitionCount(sh, n, a, b, X) > 0) &&
      ((a, b) in transitions ==>
         transitions[(a, b)] == Counts(TransitionCount(sh, n, a, b, T), TransitionCount(sh, n, a, b, X)))
  }

  /** One more round read into the table keeps it tracking the counts. */
  lemma CountTransition(transitions: map<(TX, TX), Counts>, sh: seq<Status>, n: nat)
    requires 2 <= n < |sh| && Tracks(transitions, sh, n)
    ensures Tracks(transitions[(sh[n - 2].taixiu, sh[n - 1].taixiu) :=
                     Bump(if (sh[n - 2].taixiu, sh[n - 1].taixiu) in transitions
                          then transitions[(sh[n - 2].taixiu, sh[n - 1].taixiu)] else Counts(0, 0),
                          sh[n].taixiu)],
                   sh, n + 1)
  {
    var key := (sh[n - 2].taixiu, sh[n - 1].taixiu);
    forall a: TX, b: TX, next: TX
      ensures TransitionCount(sh, n + 1, a, b, next)
              == TransitionCount(sh, n, a, b, next) + (if (a, b) == key && next == sh[n].taixiu then 1 else 0)
    {
    }
  }

  /** `analyzeMarkovChainAndStreak` as a function of the classified history. */
  function MarkovOf(sh: seq<Status>): (r: Analysis)
    ensures |sh| < 5 ==> r == Analysis(None, 0, MarkovTooShort)
    ensures r.prediction.None? ==> r.certainty == 0
    ensures r.prediction.Some? ==> 50 <= r.certainty <= 100
    ensures |sh| >= 5 && Streak(sh) >= 4 ==> r.prediction.Some? && (r.prediction.value == sh[0].taixiu <==> Streak(sh) < 7)
  {
    if |sh| < 5 then Analysis(None, 0, MarkovTooShort)
    else
      var k := Streak(sh);
      var v := sh[0].taixiu;
      if k >= 4 then
        if k < 7 then Analysis(Some(v), 50 + k * 5, MarkovStreak(k))
        else Analysis(Some(Flip(v)), 50 + (k - 7) * 2, MarkovLongStreak(k))
      else
        var a, b := sh[1].taixiu, sh[0].taixiu;
        var t, x := TransitionCount(sh, |sh|, a, b, T), TransitionCount(sh, |sh|, a, b, X);
        if t + x > 0 then
          var predicted := if t > x then T else X;
          RoundPercentOfMajority(Max(t, x), t + x);
          Analysis(Some(predicted), RoundPercent(Max(t, x), t + x), MarkovChain((a, b), predicted))
        else Analysis(None, 0, MarkovNoPattern)
  }

  /** The streak branch: a run of 4 to 6 is followed, a longer one is bet against. */
  lemma MarkovStreakBranch(sh: seq<Status>)
    requires |sh| >= 5 && Streak(sh) >= 4
    ensures Streak(sh) < 7 ==> MarkovOf(sh) == Analysis(Some(sh[0].taixiu), 50 + 5 * Streak(sh), MarkovStreak(Streak(sh)))
    ensures Streak(sh) >= 7 ==>
              MarkovOf(sh) == Analysis(Some(Flip(sh[0].taixiu)), 50 + 2 * (Streak(sh) - 7), MarkovLongStreak(Streak(sh)))
    ensures MarkovOf(sh).certainty <= 80
  {
  }

  /**
   * The chain branch: after the newest pair (`s[1]`, then `s[0]`) the code
   * that followed it more often in the past is predicted, 'X' on a tie, with
   * the rounded share of that code as certainty; a pair never seen abstains.
   */
  lemma MarkovChainBranch(sh: seq<Status>)
    requires |sh| >= 5 && Streak(sh) < 4
    ensures var t := TransitionCount(sh, |sh|, sh[1].taixiu, sh[0].taixiu, T);
            var x := TransitionCount(sh, |sh|, sh[1].taixiu, sh[0].taixiu, X);
            && (MarkovOf(sh).prediction.Some? <==> t + x > 0)
            && (MarkovOf(sh).prediction == Some(T) <==> t > x)
            && (t + x > 0 ==> MarkovOf(sh).certainty == RoundPercent(Max(t, x), t + x))
  {
  }

  /**
   * `analyzeMarkovChainAndStreak`: the streak scan stops at the first round
   * that breaks the run or at index 15; without a run of four it counts
   * every length-2 context and what followed it.
   */
  method AnalyzeMarkovChainAndStreak(statusHistory: seq<Status>) returns (r: Analysis)
    ensures r == MarkovOf(statusHistory)
  {
    if |statusHistory| < 5 {
      return Analysis(None, 0, MarkovTooShort);
    }
    var lastTwoStates := (statusHistory[1].taixiu, statusHistory[0].taixiu);

    var streakCount: nat := 1;
    var streakValue := statusHistory[0].taixiu;
    for i := 1 to Min(|statusHistory|, 15)
      invariant streakCount == i
      invariant i + RunFrom(statusHistory, i) == Streak(statusHistory)
    {
      if statusHistory[i].taixiu == streakValue {
        streakCount := streakCount + 1;
      } else {
        break;
      }
    }
    assert streakCount == Streak(statusHistory);
    if streakCount >= 4 {
      if streakCount < 7 {
        return Analysis(Some(streakValue), 50 + streakCount * 5, MarkovStreak(streakCount));
      } else {
        var inversePrediction := if streakValue == T then X else T;
        return Analysis(Some(inversePrediction), 50 + (streakCount - 7) * 2, MarkovLongStreak(streakCount));
      }
    }

    var transitions: map<(TX, TX), Counts> := map[];
    for i := 2 to |statusHistory|
      invariant Tracks(transitions, statusHistory, i)
    {
      var key := (statusHistory[i - 2].taixiu, statusHistory[i - 1].taixiu);
      var nextState := statusHistory[i].taixiu;
      CountTransition(transitions, statusHistory, i);
      var current := if key in transitions then transitions[key] else Counts(0, 0);
      transitions := transitions[key := Bump(current, nextState)];
    }

    if lastTwoStates in transitions {
      var currentTransition := transitions[lastTwoStates];
      var total := currentTransition.t + currentTransition.x;
      if total > 0 {
        var predicted := if currentTransition.t > currentTransition.x then T else X;
        var certainty := RoundPercent(Max(currentTransition.t, currentTransition.x), total);
        return Analysis(Some(predicted), certainty, MarkovChain(lastTwoStates, predicted));
      }
    }
    return Analysis(None, 0, MarkovNoPattern);
  }

  // ---------------------------------------------------------------------
  // Model 2: balance over two windows.
  // ---------------------------------------------------------------------

  /** `|counts.T - counts.X|` over a window. */
  function Skew(w: seq<Status>): (d: nat)
    ensures d <= |w| && (|w| - d) % 2 == 0
  {
    CountsCover(w);
    Abs(CountTX(w, T) - CountTX(w, X))
  }

  /** `v` is strictly the rarer code of the window. */
  predicate IsMinority(w: seq<Status>, v: TX) {
    CountTX(w, v) < CountTX(w, Flip(v))
  }

  /**
   * `analyzeMultiTimeframeBalance`: with 30 rounds or more, a skew of 4 in
   * the newest 15, or else of 7 in the newest 30, predicts the rarer code,
   * with a certainty growing with the skew and capped at 80 (resp. 75).
   */
  function AnalyzeMultiTimeframeBalance(sh: seq<Status>): (r: Analysis)
    ensures |sh| < 30 ==> r == Analysis(None, 0, BalanceTooShort)
    ensures r.prediction.None? ==> r.certainty == 0
    ensures r.prediction.Some? <==> |sh| >= 30 && (Skew(sh[..15]) >= 4 || Skew(sh[..30]) >= 7)
    ensures |sh| >= 30 && Skew(sh[..15]) >= 4 ==>
              r.prediction.Some? && IsMinority(sh[..15], r.prediction.value) &&
              r.certainty == Min(Skew(sh[..15]) * 10, 80) && 50 <= r.certainty
    ensures |sh| >= 30 && Skew(sh[..15]) < 4 && Skew(sh[..30]) >= 7 ==>
              r.prediction.Some? && IsMinority(sh[..30], r.prediction.value) &&
              r.certainty == Min(Skew(sh[..30]) * 8, 75) && 64 <= r.certainty
  {
    if |sh| < 30 then Analysis(None, 0, BalanceTooShort)
    else
      var shortTerm, longTerm := sh[..15], sh[..30];
      CountsCover(shortTerm);
      CountsCover(longTerm);
      var shortTermDiff := Skew(shortTerm);
      var longTermDiff := Skew(longTerm);
      if shortTermDiff >= 4 then
        var prediction := if CountTX(shortTerm, T) > CountTX(shortTerm, X) then X else T;
        Analysis(Some(prediction), Min(shortTermDiff * 10, 80), BalanceShortTerm)
      else if longTermDiff >= 7 then
        var prediction := if CountTX(longTerm, T) > CountTX(longTerm, X) then X else T;
        Analysis(Some(prediction), Min(longTermDiff * 8, 75), BalanceLongTerm)
      else Analysis(None, 0, BalanceSteady)
  }

  // ---------------------------------------------------------------------
  // Model 3: shape patterns over the newest four codes.
  // ---------------------------------------------------------------------

  /**
   * `analyzeHeuristicPatterns`: with five rounds or more, "3-2-1"
   * (`r0 != r1 = r2 = r3`) follows the newest code at 75, and "1-1-2"
   * (`r0 != r1 != r2 = r3`) follows `r1` at 70. Both need `r0 != r1` and
   * `r2 = r3`; the third code decides between following and breaking with
   * the newest one.
   */
  function AnalyzeHeuristicPatterns(sh: seq<Status>): (r: Analysis)
    ensures |sh| < 5 ==> r == Analysis(None, 0, HeuristicTooShort)
    ensures r.prediction.Some? <==> |sh| >= 5 && sh[0].taixiu != sh[1].taixiu && sh[2].taixiu == sh[3].taixiu
    ensures r.prediction.Some? ==> (r.prediction.value == sh[0].taixiu <==> sh[1].taixiu == sh[2].taixiu)
    ensures r.prediction.Some? ==> r.certainty == (if sh[1].taixiu == sh[2].taixiu then 75 else 70)
    ensures r.prediction.None? ==> r.certainty == 0
  {
    if |sh| < 5 then Analysis(None, 0, HeuristicTooShort)
    else
      var recent := seq(5, i requires 0 <= i < 5 => sh[i].taixiu);
      if recent[0] != recent[1] && recent[1] == recent[2] && recent[2] == recent[3] then
        Analysis(Some(recent[0]), 75, Heuristic321)
      else if recent[0] != recent[1] && recent[1] != recent[2] && recent[2] == recent[3] then
        Analysis(Some(recent[1]), 70, Heuristic112)
      else Analysis(None, 0, HeuristicNoPattern)
  }
}
