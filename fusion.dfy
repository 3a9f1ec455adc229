/**
 * `predictAdvanced` of server1.js: the three analysers' certainties are added
 * per size code, the larger side wins (Tài on a tie), the confidence is the
 * winner's rounded share, capped at 60 unless two analysers back the winner,
 * and three candidate sums are picked from the winner's band.
 */
module Fusion {
  import opened Common
  import opened RoundStatus
  import opened Analysers

  /** The keys of `predictionBreakdown`. */
  datatype ModelName = MarkovModel | BalanceModel | HeuristicModel

  /** `dynamicWeights`: one per analyser; all are 1 and nothing changes them. */
  datatype DynamicWeights = DynamicWeights(markov: nat, balance: nat, heuristic: nat)

  const Dynamic: DynamicWeights := DynamicWeights(1, 1, 1)

  /** An entry of `allModels`. */
  datatype Model = Model(name: ModelName, result: Analysis, weight: nat)

  /** An entry of `predictionBreakdown`, recorded only for an analyser that predicted. */
  datatype Breakdown = Breakdown(name: ModelName, prediction: TX, certainty: nat, score: nat)

  /** A line of `explanation`: an analyser's description, the "no basis" remark, or the "wait for more rounds" text. */
  datatype Line = Described(note: Note) | NoBasis | NeedMoreRounds

  /** The returned `{ du_doan, doan_vi, confidence, giai_thich }`; the explanation lines are kept unjoined. */
  datatype Advice = Advice(duDoan: string, doanVi: seq<int>, confidence: nat, giaiThich: seq<Line>)

  /** The call returned for fewer than 15 rounds. */
  const NOT_ENOUGH_DATA: string := "Chưa đủ dữ liệu"

  /** The least number of rounds the fusion works with. */
  const MinRounds: nat := 15

  /** The agreement cap and the number of agreeing analysers that lifts it. */
  const DisagreementCap: nat := 60
  const MinAgreement: nat := 2

  // ---------------------------------------------------------------------
  // Candidate sums.
  // ---------------------------------------------------------------------

  /** `sumsToPredict`: the Tài band 11..17, otherwise the Xỉu band 4..10. */
  function Band(side: string): (b: seq<int>)
    ensures |b| == 7
    ensures forall i, j :: 0 <= i < j < |b| ==> b[i] < b[j]
    ensures side == TAI ==> forall i :: 0 <= i < |b| ==> 11 <= b[i] <= 17
    ensures side != TAI ==> forall i :: 0 <= i < |b| ==> 4 <= b[i] <= 10
  {
    if side == TAI then [11, 12, 13, 14, 15, 16, 17] else [4, 5, 6, 7, 8, 9, 10]
  }

  /** No value occurs twice. */
  predicate Distinct(s: seq<int>) {
    forall i, j :: 0 <= i < j < |s| ==> s[i] != s[j]
  }

  /** Scores do not increase along `s`. */
  predicate DescendingBy(s: seq<int>, score: int -> real) {
    forall i, j :: 0 <= i < j < |s| ==> score(s[i]) >= score(s[j])
  }

  /** Places `x` before the first entry of `t` that does not outscore it (a stable insertion). */
  function InsertByScore(x: int, t: seq<int>, score: int -> real): (r: seq<int>)
    ensures |r| == |t| + 1
    ensures forall y :: y in r <==> y == x || y in t
  {
    if t == [] || score(x) >= score(t[0]) then [x] + t
    else
      assert t == [t[0]] + t[1..];
      [t[0]] + InsertByScore(x, t[1..], score)
  }

  /** Insertion keeps the order by score. */
  lemma {:induction false} InsertByScoreSorted(x: int, t: seq<int>, score: int -> real)
    requires DescendingBy(t, score)
    ensures DescendingBy(InsertByScore(x, t, score), score)
  {
    if t != [] && score(x) < score(t[0]) {
      DescendingTail(t, score);
      InsertByScoreSorted(x, t[1..], score);
      HeadOutscores(x, t, score);
      ConsDescending(t[0], InsertByScore(x, t[1..], score), score);
    }
  }

  lemma DescendingTail(t: seq<int>, score: int -> real)
    requires t != [] && DescendingBy(t, score)
    ensures DescendingBy(t[1..], score)
  {
    var t' := t[1..];
    forall i, j | 0 <= i < j < |t'|
      ensures score(t'[i]) >= score(t'[j])
    {
      assert t'[i] == t[i + 1] && t'[j] == t[j + 1];
    }
  }

  /** When `x` goes behind the head, the head outscores everything after it. */
  lemma HeadOutscores(x: int, t: seq<int>, score: int -> real)
    requires t != [] && DescendingBy(t, score) && score(x) < score(t[0])
    ensures forall y :: y in InsertByScore(x, t[1..], score) ==> score(t[0]) >= score(y)
  {
    forall y | y in InsertByScore(x, t[1..], score)
      ensures score(t[0]) >= score(y)
    {
      if y != x {
        var k :| 0 <= k < |t[1..]| && t[1..][k] == y;
        assert t[k + 1] == y;
      }
    }
  }

  lemma ConsDescending(h: int, r: seq<int>, score: int -> real)
    requires DescendingBy(r, score) && forall y :: y in r ==> score(h) >= score(y)
    ensures DescendingBy([h] + r, score)
  {
    var c := [h] + r;
    forall i, j | 0 <= i < j < |c|
      ensures score(c[i]) >= score(c[j])
    {
      assert c[j] == r[j - 1] && r[j - 1] in r;
      if i > 0 {
        assert c[i] == r[i - 1];
      }
    }
  }

  /** Inserting a new value into distinct values keeps them distinct. */
  lemma {:induction false} InsertByScoreDistinct(x: int, t: seq<int>, score: int -> real)
    requires Distinct(t) && x !in t
    ensures Distinct(InsertByScore(x, t, score))
  {
    if t != [] && score(x) < score(t[0]) {
      var t' := t[1..];
      assert Distinct(t') && x !in t' by {
        forall i, j | 0 <= i < j < |t'|
          ensures t'[i] != t'[j]
        {
          assert t'[i] == t[i + 1] && t'[j] == t[j + 1];
        }
        assert forall y :: y in t' ==> y in t;
      }
      InsertByScoreDistinct(x, t', score);
      var r' := InsertByScore(x, t', score);
      var r := [t[0]] + r';
      assert t[0] != x && t[0] !in t' by {
        forall k | 0 <= k < |t'|
          ensures t'[k] != t[0]
        {
          assert t'[k] == t[k + 1];
        }
      }
      assert t[0] !in r';
      forall i, j | 0 <= i < j < |r|
        ensures r[i] != r[j]
      {
        assert r[j] == r'[j - 1] && r'[j - 1] in r';
        if i > 0 {
          assert r[i] == r'[i - 1];
        }
      }
    } else {
      assert InsertByScore(x, t, score) == [x] + t;
    }
  }

  /** Distinct values stay distinct when the head is inserted into the sorted tail. */
  lemma SortStepDistinct(s: seq<int>, rest: seq<int>, score: int -> real)
    requires s != [] && (forall y :: y in rest <==> y in s[1..])
    requires Distinct(s[1..]) ==> Distinct(rest)
    ensures Distinct(s) ==> Distinct(InsertByScore(s[0], rest, score))
  {
    if Distinct(s) {
      var t := s[1..];
      assert Distinct(t) by {
        forall i, j | 0 <= i < j < |t|
          ensures t[i] != t[j]
        {
          assert t[i] == s[i + 1] && t[j] == s[j + 1];
        }
      }
      assert s[0] !in t by {
        forall k | 0 <= k < |t|
          ensures t[k] != s[0]
        {
          assert t[k] == s[k + 1];
        }
      }
      InsertByScoreDistinct(s[0], rest, score);
    }
  }

  /** The stable sort by descending score of `Object.entries(sumScores)`. */
  function SortByScore(s: seq<int>, score: int -> real): (r: seq<int>)
    ensures |r| == |s|
    ensures forall y :: y in r <==> y in s
    ensures DescendingBy(r, score)
    ensures Distinct(s) ==> Distinct(r)
  {
    if s == [] then []
    else
      var rest := SortByScore(s[1..], score);
      InsertByScoreSorted(s[0], rest, score);
      SortStepDistinct(s, rest, score);
      assert s == [s[0]] + s[1..];
      assert Distinct(s) ==> s[0] !in s[1..];
      InsertByScore(s[0], rest, score)
  }

  /** Insertion adds exactly one occurrence of `x`. */
  lemma {:induction false} InsertByScorePermutes(x: int, t: seq<int>, score: int -> real)
    ensures multiset(InsertByScore(x, t, score)) == multiset(t) + multiset{x}
  {
    if t != [] && score(x) < score(t[0]) {
      InsertByScorePermutes(x, t[1..], score);
      assert t == [t[0]] + t[1..];
    }
  }

  /** The sort is a permutation: every value keeps its number of occurrences. */
  lemma {:induction false} SortByScorePermutes(s: seq<int>, score: int -> real)
    ensures multiset(SortByScore(s, score)) == multiset(s)
  {
    if s != [] {
      SortByScorePermutes(s[1..], score);
      InsertByScorePermutes(s[0], SortByScore(s[1..], score), score);
      assert s == [s[0]] + s[1..];
    }
  }

  /**
   * `predictSums` with the per-sum score left as a parameter: the three
   * best-scoring sums of the band, best first. They are distinct, come from
   * the band, and no sum left out scores above any chosen one.
   */
  function PredictSums(side: string, score: int -> real): (r: seq<int>)
    ensures |r| == 3 && Distinct(r)
    ensures forall i :: 0 <= i < 3 ==> r[i] in Band(side)
    ensures score(r[0]) >= score(r[1]) >= score(r[2])
    ensures forall y :: y in Band(side) && y !in r ==> score(y) <= score(r[2])
  {
    var b := Band(side);
    assert Distinct(b);
    var sorted := SortByScore(b, score);
    TopThree(b, sorted, score);
    sorted[..3]
  }

  /** The first three of a distinct list sorted by descending score are its three best. */
  lemma TopThree(b: seq<int>, sorted: seq<int>, score: int -> real)
    requires |sorted| >= 3 && (forall y :: y in sorted <==> y in b)
    requires DescendingBy(sorted, score) && Distinct(sorted)
    ensures Distinct(sorted[..3]) && forall i :: 0 <= i < 3 ==> sorted[..3][i] in b
    ensures score(sorted[0]) >= score(sorted[1]) >= score(sorted[2])
    ensures forall y :: y in b && y !in sorted[..3] ==> score(y) <= score(sorted[2])
  {
    var r := sorted[..3];
    assert forall i :: 0 <= i < 3 ==> sorted[i] == r[i];
    forall y | y in b && y !in r
      ensures score(y) <= score(sorted[2])
    {
      var k :| 0 <= k < |sorted| && sorted[k] == y;
      assert k >= 3;
    }
  }

  // ---------------------------------------------------------------------
  // Fusion.
  // ---------------------------------------------------------------------

  /**
   * `allModels` over the classified history: the three analysers in order,
   * each of weight 1; one that predicts does so with a positive certainty.
   */
  function ModelsOf(sh: seq<Status>): (ms: seq<Model>)
    ensures |ms| == 3
    ensures ms[0].name == MarkovModel && ms[1].name == BalanceModel && ms[2].name == HeuristicModel
    ensures forall i :: 0 <= i < 3 ==> ms[i].weight == 1
    ensures PositiveScores(ms)
  {
    [Model(MarkovModel, MarkovOf(sh), Dynamic.markov),
     Model(BalanceModel, AnalyzeMultiTimeframeBalance(sh), Dynamic.balance),
     Model(HeuristicModel, AnalyzeHeuristicPatterns(sh), Dynamic.heuristic)]
  }

  /**
   * `scores[v]` after the loop over `ms`: the weighted certainties of the
   * analysers predicting `v`; a code no analyser backs scores nothing.
   */
  function ScoreOf(ms: seq<Model>, v: TX): (n: nat)
    ensures Backing(ms, v) == 0 ==> n == 0
  {
    if ms == [] then 0
    else
      var m := ms[|ms| - 1];
      ScoreOf(ms[..|ms| - 1], v) + (if m.result.prediction == Some(v) then m.result.certainty * m.weight else 0)
  }

  /** `explanation` after the loop over `ms`: the descriptions of the analysers that predicted. */
  function LinesOf(ms: seq<Model>): (r: seq<Line>)
    ensures |r| <= |ms|
    ensures forall i :: 0 <= i < |r| ==> r[i].Described?
  {
    if ms == [] then []
    else
      var m := ms[|ms| - 1];
      LinesOf(ms[..|ms| - 1]) + (if m.result.prediction.Some? then [Described(m.result.description)] else [])
  }

  /**
   * The explanation of a list of analysers is the explanation of its first
   * part followed by that of the rest: lines keep the analysers' order.
   */
  lemma {:induction false} LinesOfConcat(a: seq<Model>, b: seq<Model>)
    ensures LinesOf(a + b) == LinesOf(a) + LinesOf(b)
    decreases |b|
  {
    if b != [] {
      var b' := b[..|b| - 1];
      assert (a + b)[..|a + b| - 1] == a + b';
      assert (a + b)[|a + b| - 1] == b[|b| - 1];
      LinesOfConcat(a, b');
    } else {
      assert a + b == a;
    }
  }

  /** One analyser contributes its description exactly when it predicts, and nothing otherwise. */
  lemma LinesOfOne(m: Model)
    ensures m.result.prediction.Some? ==> LinesOf([m]) == [Described(m.result.description)]
    ensures m.result.prediction.None? ==> LinesOf([m]) == []
  {
    assert [m][..0] == [];
  }

  /** `predictionBreakdown` after the loop over `ms`, in insertion order: one entry per explanation line. */
  function BreakdownOf(ms: seq<Model>): (r: seq<Breakdown>)
    ensures |r| == |LinesOf(ms)| <= |ms|
  {
    if ms == [] then []
    else
      var m := ms[|ms| - 1];
      BreakdownOf(ms[..|ms| - 1]) +
      (if m.result.prediction.Some?
       then [Breakdown(m.name, m.result.prediction.value, m.result.certainty, m.result.certainty * m.weight)]
       else [])
  }

  /** `agreementCount` over the first entries of the breakdown. */
  function Agreeing(b: seq<Breakdown>, v: TX): (n: nat)
    ensures n <= |b|
  {
    if b == [] then 0 else Agreeing(b[..|b| - 1], v) + (if b[|b| - 1].prediction == v then 1 else 0)
  }

  /** How many analysers of `ms` predicted `v`. */
  function Backing(ms: seq<Model>, v: TX): (n: nat)
    ensures n <= |ms|
  {
    if ms == [] then 0 else Backing(ms[..|ms| - 1], v) + (if ms[|ms| - 1].result.prediction == Some(v) then 1 else 0)
  }

  /** Agreement counted over the breakdown is the number of analysers backing the code. */
  lemma {:induction false} AgreeingIsBacking(ms: seq<Model>, v: TX)
    ensures Agreeing(BreakdownOf(ms), v) == Backing(ms, v)
  {
    if ms != [] {
      AgreeingIsBacking(ms[..|ms| - 1], v);
      var b := BreakdownOf(ms[..|ms| - 1]);
      var m := ms[|ms| - 1];
      if m.result.prediction.Some? {
        var e := Breakdown(m.name, m.result.prediction.value, m.result.certainty, m.result.certainty * m.weight);
        assert BreakdownOf(ms) == b + [e];
        assert (b + [e])[..|b + [e]| - 1] == b;
        assert Agreeing(b + [e], v) == Agreeing(b, v) + (if e.prediction == v then 1 else 0);
        assert (e.prediction == v) == (m.result.prediction == Some(v));
      } else {
        assert BreakdownOf(ms) == b;
        assert m.result.prediction != Some(v);
      }
      assert Backing(ms, v) == Backing(ms[..|ms| - 1], v) + (if m.result.prediction == Some(v) then 1 else 0);
    }
  }

  /** `finalPrediction === 'Tài' ? 'T' : 'X'`. */
  function Code(side: string): (c: TX)
    ensures c == T <==> side == TAI
  {
    if side == TAI then T else X
  }

  /** The label of the fused call: Xỉu only on a strictly larger Xỉu score. */
  function FinalLabel(t: nat, x: nat): (side: string)
    ensures side == XIU <==> x > t
    ensures side == TAI <==> x <= t
    ensures Code(side) == if x > t then X else T
  {
    LabelsDiffer();
    if t > x then TAI else if x > t then XIU else TAI
  }

  /** The confidence before the agreement cap: the winner's rounded share, or 50 on a tie or an empty table. */
  function FinalConfidence(t: nat, x: nat): (c: nat)
    ensures 50 <= c <= 100
    ensures t + x > 0 && t != x ==> c == RoundPercent(Max(t, x), t + x)
    ensures t + x == 0 || t == x ==> c == 50
  {
    if t + x > 0 && t != x then
      RoundPercentOfMajority(Max(t, x), t + x);
      RoundPercent(Max(t, x), t + x)
    else 50
  }

  /** The agreement cap: below two agreeing analysers the confidence is cut to 60. */
  function Capped(confidence: nat, agreement: nat): (c: nat)
    requires 50 <= confidence <= 100
    ensures 50 <= c <= 100
    ensures c > DisagreementCap ==> agreement >= MinAgreement
    ensures agreement >= MinAgreement ==> c == confidence
    ensures agreement < MinAgreement ==> c == Min(confidence, DisagreementCap)
  {
    if agreement < MinAgreement then Min(confidence, DisagreementCap) else confidence
  }

  /**
   * The decision part of `predictAdvanced` over the model list: the larger
   * score wins (Tài on a tie), the confidence is the winner's rounded share,
   * and it is cut to 60 unless at least two analysers back the winner.
   */
  function Fuse(ms: seq<Model>, sumScore: int -> real): (r: Advice)
    ensures r.duDoan == XIU <==> ScoreOf(ms, X) > ScoreOf(ms, T)
    ensures r.duDoan == TAI <==> ScoreOf(ms, X) <= ScoreOf(ms, T)
    ensures 50 <= r.confidence <= 100
    ensures r.confidence > DisagreementCap ==> Backing(ms, Code(r.duDoan)) >= MinAgreement
    ensures Backing(ms, Code(r.duDoan)) >= MinAgreement ==> r.confidence == FinalConfidence(ScoreOf(ms, T), ScoreOf(ms, X))
    ensures Backing(ms, Code(r.duDoan)) < MinAgreement ==>
              r.confidence == Min(FinalConfidence(ScoreOf(ms, T), ScoreOf(ms, X)), DisagreementCap)
    ensures r.doanVi == PredictSums(r.duDoan, sumScore)
  {
    var t, x := ScoreOf(ms, T), ScoreOf(ms, X);
    var side := FinalLabel(t, x);
    var lines := LinesOf(ms) + (if t + x > 0 then [] else [NoBasis]);
    var agreement := Agreeing(BreakdownOf(ms), Code(side));
    AgreeingIsBacking(ms, Code(side));
    Advice(side, PredictSums(side, sumScore), Capped(FinalConfidence(t, x), agreement), lines)
  }

  /** `predictAdvanced` as a function of the raw history, with the per-sum score as parameter. */
  function AdvancedOf(history: seq<Round>, sumScore: int -> real): (r: Advice)
    ensures |history| < MinRounds ==> r == Advice(NOT_ENOUGH_DATA, [], 0, [NeedMoreRounds])
    ensures |history| >= MinRounds ==> 50 <= r.confidence <= 100
  {
    if |history| < MinRounds then Advice(NOT_ENOUGH_DATA, [], 0, [NeedMoreRounds])
    else Fuse(ModelsOf(GetHistoryStatus(history)), sumScore)
  }

  /**
   * `predictAdvanced`: classifies the rounds, runs the three analysers,
   * accumulates over `allModels`, decides, counts agreement over the
   * breakdown and applies the cap.
   */
  method PredictAdvanced(history: seq<Round>, sumScore: int -> real) returns (a: Advice)
    ensures a == AdvancedOf(history, sumScore)
  {
    if |history| < MinRounds {
      return Advice(NOT_ENOUGH_DATA, [], 0, [NeedMoreRounds]);
    }

    var statusHistory := GetHistoryStatus(history);
    var markovResult := AnalyzeMarkovChainAndStreak(statusHistory);
    var balanceResult := AnalyzeMultiTimeframeBalance(statusHistory);
    var heuristicResult := AnalyzeHeuristicPatterns(statusHistory);

    var allModels := [Model(MarkovModel, markovResult, Dynamic.markov),
                      Model(BalanceModel, balanceResult, Dynamic.balance),
                      Model(HeuristicModel, heuristicResult, Dynamic.heuristic)];
    assert allModels == ModelsOf(statusHistory);
    a := FuseModels(allModels, sumScore);
  }

  /** The scoring loop and the decision of `predictAdvanced` over a model list. */
  method FuseModels(allModels: seq<Model>, sumScore: int -> real) returns (a: Advice)
    ensures a == Fuse(allModels, sumScore)
  {
    var scoreT, scoreX, explanation, predictionBreakdown := ScoreModels(allModels);
    LabelsDiffer();

    var finalPrediction: string;
    var finalConfidence: nat;
    var totalScore := scoreT + scoreX;
    if totalScore > 0 {
      if scoreT > scoreX {
        finalPrediction := TAI;
        finalConfidence := RoundPercent(scoreT, totalScore);
      } else if scoreX > scoreT {
        finalPrediction := XIU;
        finalConfidence := RoundPercent(scoreX, totalScore);
      } else {
        finalPrediction := TAI;
        finalConfidence := 50;
      }
    } else {
      finalPrediction := TAI;
      finalConfidence := 50;
      explanation := explanation + [NoBasis];
    }

    assert finalPrediction == FinalLabel(scoreT, scoreX);
    assert explanation == LinesOf(allModels) + (if scoreT + scoreX > 0 then [] else [NoBasis]);
    assert finalConfidence == FinalConfidence(scoreT, scoreX);
    var agreementCount := CountAgreement(predictionBreakdown, if finalPrediction == TAI then T else X);
    if agreementCount < MinAgreement {
      finalConfidence := Min(finalConfidence, DisagreementCap);
    }
    assert agreementCount == Agreeing(BreakdownOf(allModels), Code(FinalLabel(scoreT, scoreX)));
    assert finalConfidence == Capped(FinalConfidence(scoreT, scoreX), agreementCount);

    var predictedSums := PredictSums(finalPrediction, sumScore);
    a := Advice(finalPrediction, predictedSums, finalConfidence, explanation);
    FuseUnfolds(allModels, sumScore);
  }

  /** The fused advice, component by component. */
  lemma FuseUnfolds(ms: seq<Model>, sumScore: int -> real)
    ensures var t, x := ScoreOf(ms, T), ScoreOf(ms, X);
            Fuse(ms, sumScore) == Advice(FinalLabel(t, x), PredictSums(FinalLabel(t, x), sumScore),
                                         Capped(FinalConfidence(t, x), Agreeing(BreakdownOf(ms), Code(FinalLabel(t, x)))),
                                         LinesOf(ms) + (if t + x > 0 then [] else [NoBasis]))
  {
  }

  /**
   * The loop over `allModels`: each analyser with a prediction adds its
   * weighted certainty to that code's score, its description to the
   * explanation and an entry to the breakdown.
   */
  method ScoreModels(allModels: seq<Model>)
    returns (scoreT: nat, scoreX: nat, explanation: seq<Line>, predictionBreakdown: seq<Breakdown>)
    ensures scoreT == ScoreOf(allModels, T) && scoreX == ScoreOf(allModels, X)
    ensures explanation == LinesOf(allModels)
    ensures predictionBreakdown == BreakdownOf(allModels)
  {
    scoreT, scoreX := 0, 0;
    explanation, predictionBreakdown := [], [];
    for k := 0 to |allModels|
      invariant scoreT == ScoreOf(allModels[..k], T) && scoreX == ScoreOf(allModels[..k], X)
      invariant explanation == LinesOf(allModels[..k])
      invariant predictionBreakdown == BreakdownOf(allModels[..k])
    {
      var model := allModels[k];
      assert allModels[..k + 1][..k] == allModels[..k];
      if model.result.prediction.Some? {
        var score := model.result.certainty * model.weight;
        if model.result.prediction.value == T {
          scoreT := scoreT + score;
        } else {
          scoreX := scoreX + score;
        }
        explanation := explanation + [Described(model.result.description)];
        predictionBreakdown := predictionBreakdown + [Breakdown(model.name, model.result.prediction.value, model.result.certainty, score)];
      }
    }
    assert allModels[..|allModels|] == allModels;
  }

  /** The loop over `predictionBreakdown` counting the entries that predicted `target`. */
  method CountAgreement(predictionBreakdown: seq<Breakdown>, target: TX) returns (agreementCount: nat)
    ensures agreementCount == Agreeing(predictionBreakdown, target)
  {
    agreementCount := 0;
    for k := 0 to |predictionBreakdown|
      invariant agreementCount == Agreeing(predictionBreakdown[..k], target)
    {
      assert predictionBreakdown[..k + 1][..k] == predictionBreakdown[..k];
      if predictionBreakdown[k].prediction == target {
        agreementCount := agreementCount + 1;
      }
    }
    assert predictionBreakdown[..|predictionBreakdown|] == predictionBreakdown;
  }

  /** Every analyser that predicts adds a positive score. */
  predicate PositiveScores(ms: seq<Model>) {
    forall i :: 0 <= i < |ms| && ms[i].result.prediction.Some? ==> ms[i].result.certainty * ms[i].weight > 0
  }

  /** With positive scores, a code scores exactly when some analyser backs it. */
  lemma {:induction false} ScoreNeedsBacking(ms: seq<Model>, v: TX)
    requires PositiveScores(ms)
    ensures ScoreOf(ms, v) == 0 <==> Backing(ms, v) == 0
  {
    if ms != [] {
      ScoreNeedsBacking(ms[..|ms| - 1], v);
    }
  }

  /** One explanation line per predicting analyser. */
  lemma {:induction false} LinesPerBacker(ms: seq<Model>)
    ensures |LinesOf(ms)| == Backing(ms, T) + Backing(ms, X)
  {
    if ms != [] {
      LinesPerBacker(ms[..|ms| - 1]);
      var m := ms[|ms| - 1];
      if m.result.prediction.Some? {
        if m.result.prediction.value == T {
          assert m.result.prediction == Some(T);
        } else {
          assert m.result.prediction == Some(X);
        }
      }
    }
  }

  /** With no analyser predicting, the call is Tài at 50 and the only explanation is the "no basis" remark. */
  lemma NoBackingDefaultsToTai(ms: seq<Model>, sumScore: int -> real)
    requires PositiveScores(ms) && Backing(ms, T) + Backing(ms, X) == 0
    ensures Fuse(ms, sumScore).duDoan == TAI
    ensures Fuse(ms, sumScore).confidence == 50
    ensures Fuse(ms, sumScore).giaiThich == [NoBasis]
  {
    ScoreNeedsBacking(ms, T);
    ScoreNeedsBacking(ms, X);
    LinesPerBacker(ms);
    assert ScoreOf(ms, T) == 0 && ScoreOf(ms, X) == 0;
    assert LinesOf(ms) == [];
    FuseUnfolds(ms, sumScore);
  }

  /** A lone predicting analyser decides the call, and its 100% share is cut to the cap of 60. */
  lemma LoneBackerIsCapped(ms: seq<Model>, sumScore: int -> real)
    requires PositiveScores(ms) && Backing(ms, T) + Backing(ms, X) == 1
    ensures Backing(ms, Code(Fuse(ms, sumScore).duDoan)) == 1
    ensures Fuse(ms, sumScore).confidence == DisagreementCap
  {
    ScoreNeedsBacking(ms, T);
    ScoreNeedsBacking(ms, X);
    var t, x := ScoreOf(ms, T), ScoreOf(ms, X);
    if t > 0 {
      RoundPercentOfAll(t);
      assert FinalConfidence(t, x) == 100;
    } else {
      RoundPercentOfAll(x);
      assert FinalConfidence(t, x) == 100;
    }
  }

  /** Equal scores, zero or not, give Tài at 50 whatever the agreement count. */
  lemma TieGoesToTaiAtFifty(ms: seq<Model>, sumScore: int -> real)
    requires ScoreOf(ms, T) == ScoreOf(ms, X)
    ensures Fuse(ms, sumScore).duDoan == TAI
    ensures Fuse(ms, sumScore).confidence == 50
  {
    assert FinalConfidence(ScoreOf(ms, T), ScoreOf(ms, X)) == 50;
  }
}
