/**
 * The prediction engine of server.js (`PredictionEngine`): fixed-weight heuristic
 * voters over the latest rounds of the session store add into a two-entry score
 * table, and the larger entry becomes the Tài/Xỉu call with a confidence scaled
 * by the amount of history and clamped to [10, 99.99].
 */
module VoteEngine {
  import opened Common
  import opened HistoryStore

  /** The label reported when the store is empty. */
  const UNDETERMINED: string := "Chưa xác định"

  /** The explanations attached to the three kinds of result. */
  const NoDataNote: string := "Không có dữ liệu"
  const OneRoundNote: string := "Chỉ có 1 phiên → dự đoán đảo cầu."
  const AlgorithmNote: string := "Thuật toán TT/XX phân tích."

  /** The engine's `baseWeights` table; `dynamicWeights` is an unchanged copy of it. */
  datatype Weights = Weights(
    bet: real, dao11: real, dao22: real, dao33: real,
    tyLeApDao: real, mauLapLai: real, uuTienGanDay: real, default: real)

  const BaseWeights: Weights := Weights(5.0, 4.5, 4.0, 3.8, 3.0, 3.5, 3.2, 1.0)

  /** The score table `{ 'Tài': …, 'Xỉu': … }`. */
  datatype Scores = Scores(tai: real, xiu: real)

  /** One voter's contribution: nothing, or a weight added to one label. */
  datatype Vote = Abstain | Vote(side: string, weight: real)

  /** `{ du_doan, do_tin_cay, giai_thich }` before `toFixed(2)` renders the confidence. */
  datatype Prediction = Prediction(duDoan: string, doTinCay: real, giaiThich: string)

  /** `(r === 'Tài') ? "Xỉu" : "Tài"`: anything other than Tài is answered with Tài. */
  function Opposite(result: string): (r: string)
    ensures r == TAI || r == XIU
    ensures r == XIU <==> result == TAI
  {
    if result == TAI then XIU else TAI
  }

  /**
   * `predictionScores[side] += w`: only the entry named by `side` changes, and
   * the total grows by `w` exactly when `side` is one of the two labels.
   */
  function Credit(sc: Scores, side: string, w: real): (r: Scores)
    ensures r.tai + r.xiu == sc.tai + sc.xiu + (if side == TAI || side == XIU then w else 0.0)
    ensures side != TAI ==> r.tai == sc.tai
    ensures side != XIU ==> r.xiu == sc.xiu
  {
    LabelsDiffer();
    if side == TAI then sc.(tai := sc.tai + w)
    else if side == XIU then sc.(xiu := sc.xiu + w)
    else sc
  }

  /** Adds a voter's contribution: an abstention changes nothing, a cast vote raises one entry by its weight. */
  function Apply(sc: Scores, v: Vote): (r: Scores)
    ensures v.Abstain? ==> r == sc
    ensures WellFormed(v) ==> r.tai >= sc.tai && r.xiu >= sc.xiu
    ensures WellFormed(v) ==> r.tai + r.xiu == sc.tai + sc.xiu + (if v.Vote? then v.weight else 0.0)
  {
    if v.Vote? then Credit(sc, v.side, v.weight) else sc
  }

  /** A vote that is cast goes to one of the two labels with a non-negative weight. */
  predicate WellFormed(v: Vote) {
    v.Vote? ==> (v.side == TAI || v.side == XIU) && v.weight >= 0.0
  }

  // ---------------------------------------------------------------------
  // Pure helpers of the engine.
  // ---------------------------------------------------------------------

  /** JavaScript's `a % 6`: the remainder takes the sign of the dividend and differs from `a` by a multiple of 6. */
  function JsRem6(a: int): (r: int)
    ensures -6 < r < 6
    ensures a >= 0 ==> 0 <= r
    ensures a < 0 ==> r <= 0
    ensures (a - r) % 6 == 0
  {
    if a >= 0 then a % 6 else -((-a) % 6)
  }

  /** `duDoanVi(tong)`: no guess for a falsy sum, else three consecutive sums from `tong % 6 + 10`. */
  function DuDoanVi(tong: int): (r: seq<int>)
    ensures tong == 0 <==> r == []
    ensures tong != 0 ==> |r| == 3 && r[1] == r[0] + 1 && r[2] == r[0] + 2
    ensures tong > 0 ==> 10 <= r[0] <= 15 && r[0] - 10 == tong % 6
    ensures tong < 0 ==> 5 <= r[0] <= 10 && 10 - r[0] == (-tong) % 6
  {
    if tong == 0 then []
    else [JsRem6(tong) + 10, JsRem6(tong) + 11, JsRem6(tong) + 12]
  }

  /**
   * For any sum three dice can show, the guessed sums lie in 10..17 whatever the
   * call is, and they repeat with period 6.
   */
  lemma DuDoanViForDiceSums(tong: int)
    requires 3 <= tong <= 18
    ensures forall i :: 0 <= i < 3 ==> 10 <= DuDoanVi(tong)[i] <= 17
    ensures tong + 6 <= 18 ==> DuDoanVi(tong + 6) == DuDoanVi(tong)
  {
  }

  /**
   * `isAlternating(history, g)`: false below `2g` entries; otherwise, in the last
   * `2g` entries, every entry of the first half differs from the single entry at
   * offset `g` (`recent[groupSize]`).
   */
  function IsAlternating(history: seq<Session>, groupSize: nat): (r: bool)
    ensures |history| < 2 * groupSize ==> !r
    ensures |history| >= 2 * groupSize ==>
              (r <==> forall i :: |history| - 2 * groupSize <= i < |history| - groupSize ==>
                                    history[i].ketQua != history[|history| - groupSize].ketQua)
  {
    if |history| < groupSize * 2 then false
    else
      var recent := SliceFrom(history, -(groupSize * 2));
      assert groupSize > 0 ==> recent == history[|history| - 2 * groupSize..];
      forall i :: 0 <= i < groupSize ==> recent[i].ketQua != recent[groupSize].ketQua
  }

  /**
   * The check inspects only the first half of the window and its pivot: the
   * entries after the pivot never matter.
   */
  lemma IsAlternatingIgnoresTail(a: seq<Session>, b: seq<Session>, groupSize: nat)
    requires |a| == |b| >= 2 * groupSize
    requires forall i :: |a| - 2 * groupSize <= i <= |a| - groupSize && i < |a| ==> a[i].ketQua == b[i].ketQua
    ensures IsAlternating(a, groupSize) == IsAlternating(b, groupSize)
  {
    if groupSize > 0 {
      assert a[|a| - groupSize].ketQua == b[|a| - groupSize].ketQua;
    }
  }

  /** With blocks of two, the pattern T T X T passes although its second block is mixed. */
  lemma IsAlternatingAcceptsMixedBlock()
    ensures IsAlternating([Session(1, TAI), Session(2, TAI), Session(3, XIU), Session(4, TAI)], 2)
  {
  }

  /** `arr.map(r => r.ket_qua).join("")`; with the two known labels, three characters per round. */
  function Joined(s: seq<Session>): (r: string)
    ensures KnownLabels(s) ==> |r| == 3 * |s|
  {
    if s == [] then ""
    else
      LabelsDiffer();
      assert forall i :: 0 <= i < |s| - 1 ==> s[..|s| - 1][i] == s[i];
      Joined(s[..|s| - 1]) + s[|s| - 1].ketQua
  }

  function Labels(s: seq<Session>): seq<string> {
    seq(|s|, i requires 0 <= i < |s| => s[i].ketQua)
  }

  /** Every label is one of the two known three-character labels. */
  predicate KnownLabels(s: seq<Session>) {
    forall i :: 0 <= i < |s| ==> s[i].ketQua == TAI || s[i].ketQua == XIU
  }

  /** The labels of a non-empty window are those of all but its last entry, then the last one's. */
  lemma LabelsSnoc(a: seq<Session>)
    requires a != []
    ensures Labels(a) == Labels(a[..|a| - 1]) + [a[|a| - 1].ketQua]
  {
  }

  /**
   * For windows of equal length whose labels are all Tài or Xỉu, comparing the
   * joined strings is comparing the label sequences.
   */
  lemma {:induction false} JoinedMatchesLabels(a: seq<Session>, b: seq<Session>)
    requires |a| == |b| && KnownLabels(a) && KnownLabels(b)
    ensures Joined(a) == Joined(b) <==> Labels(a) == Labels(b)
    decreases |a|
  {
    if a != [] {
      var a', b' := a[..|a| - 1], b[..|b| - 1];
      assert KnownLabels(a') && KnownLabels(b') by {
        forall i | 0 <= i < |a'| ensures a'[i] == a[i] && b'[i] == b[i] { }
      }
      JoinedMatchesLabels(a', b');
      LabelsSnoc(a);
      LabelsSnoc(b);
      var la, lb := a[|a| - 1].ketQua, b[|b| - 1].ketQua;
      var ja, jb := Joined(a'), Joined(b');
      assert Joined(a) == ja + la && Joined(b) == jb + lb;
      if Joined(a) == Joined(b) {
        assert ja == (ja + la)[..|ja|] && jb == (jb + lb)[..|jb|];
        assert la == (ja + la)[|ja|..] && lb == (jb + lb)[|jb|..];
        assert ja == jb && la == lb;
      }
      if Labels(a) == Labels(b) {
        assert Labels(a') == Labels(a)[..|a'|] && Labels(b') == Labels(b)[..|b'|];
        assert la == Labels(a)[|a'|] && lb == Labels(b)[|b'|];
      }
    }
  }

  // ---------------------------------------------------------------------
  // The voters, in the order `predict` runs them.
  // ---------------------------------------------------------------------

  /**
   * Streak: a run of at least 4 of one label at the end of the window bets on
   * the other label with weight `5 * run`.
   */
  function StreakVote(recent10: seq<Session>): (v: Vote)
    ensures WellFormed(v)
    ensures v.Vote? <==> TrailingRun(recent10, TAI) >= 4 || TrailingRun(recent10, XIU) >= 4
    ensures v.Vote? ==>
              var last := recent10[|recent10| - 1].ketQua;
              v.side == Opposite(last) && v.weight == (TrailingRun(recent10, last) as real) * BaseWeights.bet
  {
    var taiSeq := TrailingRun(recent10, TAI);
    var xiuSeq := TrailingRun(recent10, XIU);
    if taiSeq >= 4 then Vote(XIU, (taiSeq as real) * BaseWeights.bet)
    else if xiuSeq >= 4 then Vote(TAI, (xiuSeq as real) * BaseWeights.bet)
    else Abstain
  }

  /** Alternation with blocks of `groupSize`, on a window of at least `minLength`: bet against the last round. */
  function AlternationVote(window: seq<Session>, groupSize: nat, minLength: nat, w: real, lastResult: string): (v: Vote)
    ensures v.Vote? <==> IsAlternating(window, groupSize) && |window| >= minLength
    ensures v.Vote? ==> v == Vote(Opposite(lastResult), w)
  {
    if IsAlternating(window, groupSize) && |window| >= minLength then Vote(Opposite(lastResult), w)
    else Abstain
  }

  /**
   * Repeat: the last five labels, joined, equal the five before them. The label
   * credited is decided by `last5[0] === 'Tài'`, a one-character string against
   * a three-character one, so the vote always goes to Xỉu.
   */
  function RepeatVote(recent20: seq<Session>): (v: Vote)
    ensures WellFormed(v)
    ensures v.Vote? <==>
              |recent20| >= 10 &&
              Joined(recent20[|recent20| - 5..]) == Joined(recent20[|recent20| - 10..|recent20| - 5])
    ensures v.Vote? ==> v == Vote(XIU, BaseWeights.mauLapLai)
  {
    if |recent20| >= 10 then
      var last5 := Joined(SliceFrom(recent20, -5));
      var prev5 := Joined(recent20[|recent20| - 10..|recent20| - 5]);
      if last5 == prev5 then
        var first := if |last5| > 0 then last5[..1] else "";
        Vote(if first == TAI then TAI else XIU, BaseWeights.mauLapLai)
      else Abstain
    else Abstain
  }

  /**
   * "Nhồi": in a window of at least 7, a label seen at least 5 times (Tài
   * checked first) is backed with the fixed weight; in a window of at most 10
   * the backed label is never outnumbered.
   */
  function NhoiVote(recent10: seq<Session>): (v: Vote)
    ensures WellFormed(v)
    ensures v.Vote? <==> |recent10| >= 7 && (CountOf(recent10, TAI) >= 5 || CountOf(recent10, XIU) >= 5)
    ensures v.Vote? ==> v.weight == BaseWeights.uuTienGanDay && CountOf(recent10, v.side) >= 5
    ensures v.Vote? ==> (v.side == TAI <==> CountOf(recent10, TAI) >= 5)
    ensures v.Vote? && |recent10| <= 10 ==> CountOf(recent10, v.side) >= CountOf(recent10, Opposite(v.side))
  {
    CountsBounded(recent10);
    if |recent10| >= 7 then
      var taiCount := CountOf(recent10, TAI);
      var xiuCount := CountOf(recent10, XIU);
      if taiCount >= 5 then Vote(TAI, BaseWeights.uuTienGanDay)
      else if xiuCount >= 5 then Vote(XIU, BaseWeights.uuTienGanDay)
      else Abstain
    else Abstain
  }

  /**
   * Ratio skew over the last 30: when the two shares differ by more than 0.3,
   * bet on the rarer label with weight `|difference| * 10 * 3`, which lies in (9, 30].
   */
  function RatioVote(recent30: seq<Session>): (v: Vote)
    ensures WellFormed(v)
    ensures v.Vote? <==>
              |recent30| >= 10 &&
              AbsReal(FrequencyOf(recent30).taiRatio - FrequencyOf(recent30).xiuRatio) > 0.3
    ensures v.Vote? ==> CountOf(recent30, v.side) < CountOf(recent30, Opposite(v.side))
    ensures v.Vote? ==>
              v.weight == AbsReal(FrequencyOf(recent30).taiRatio - FrequencyOf(recent30).xiuRatio) * 10.0 * BaseWeights.tyLeApDao
    ensures v.Vote? ==> 9.0 < v.weight <= 30.0
  {
    if |recent30| >= 10 then
      var f := FrequencyOf(recent30);
      var d := f.taiRatio - f.xiuRatio;
      if AbsReal(d) > 0.3 then
        RatioOrder(f.taiCount, f.xiuCount, |recent30|);
        Vote(if f.taiRatio > f.xiuRatio then XIU else TAI, (AbsReal(d) * 10.0) * BaseWeights.tyLeApDao)
      else Abstain
    else Abstain
  }

  lemma RatioOrder(t: nat, x: nat, n: nat)
    requires 0 < n && t + x <= n
    ensures Share(t, n) > Share(x, n) <==> t > x
    ensures Share(t, n) < Share(x, n) <==> t < x
    ensures AbsReal(Share(t, n) - Share(x, n)) <= 1.0
  {
    SharesBounded(t, x, n);
    var N := n as real;
    var d := Share(t, n) - Share(x, n);
    assert Share(t, n) * N == t as real;
    assert Share(x, n) * N == x as real;
    assert d * N == (t as real) - (x as real);
    assert AbsReal(d) * N <= N;
  }

  // ---------------------------------------------------------------------
  // Fusion.
  // ---------------------------------------------------------------------

  /** All the votes of `predict` added into a fresh table; the store must not be empty. */
  function Tally(h: seq<Session>): (sc: Scores)
    requires |h| > 0
    ensures sc.tai >= 0.0 && sc.xiu >= 0.0 && sc.tai + sc.xiu >= 1.0
  {
    // The last of the hundred most recent rounds is the last round of the store.
    var lastResult := h[|h| - 1].ketQua;
    var recent30, recent10, recent20 := SliceFrom(h, -30), SliceFrom(h, -10), SliceFrom(h, -20);
    var v1 := StreakVote(recent10);
    var v2 := AlternationVote(recent10, 1, 6, BaseWeights.dao11, lastResult);
    var v3 := AlternationVote(recent10, 2, 8, BaseWeights.dao22, lastResult);
    var v4 := AlternationVote(recent20, 3, 12, BaseWeights.dao33, lastResult);
    var v5 := RepeatVote(recent20);
    var v6 := NhoiVote(recent10);
    var v7 := RatioVote(recent30);
    var v8 := Vote(Opposite(lastResult), BaseWeights.default);
    var s1 := Apply(Scores(0.0, 0.0), v1);
    var s2 := Apply(s1, v2);
    var s3 := Apply(s2, v3);
    var s4 := Apply(s3, v4);
    assert s4.tai >= 0.0 && s4.xiu >= 0.0;
    var s5 := Apply(s4, v5);
    var s6 := Apply(s5, v6);
    var s7 := Apply(s6, v7);
    assert s7.tai >= 0.0 && s7.xiu >= 0.0;
    Apply(s7, v8)
  }

  /**
   * `finalScore / totalScore * 100`, scaled by `min(1, n / 100)` and clamped to
   * [10, 99.99]. Tài wins only on a strictly larger score. The winner holds at
   * least half of the total, so the unscaled confidence is in [50, 100]; from
   * 100 rounds on the scaling keeps it there, and below 100 rounds it is at
   * most `n` before the floor of 10.
   */
  function Decide(sc: Scores, historyLength: nat): (p: Prediction)
    requires sc.tai >= 0.0 && sc.xiu >= 0.0 && sc.tai + sc.xiu > 0.0
    ensures p.duDoan == TAI <==> sc.tai > sc.xiu
    ensures p.duDoan == TAI || p.duDoan == XIU
    ensures p.giaiThich == AlgorithmNote
    ensures 10.0 <= p.doTinCay <= 99.99
    ensures historyLength >= 100 ==> p.doTinCay >= 50.0
    ensures historyLength < 100 ==> p.doTinCay <= MaxReal(10.0, historyLength as real)
    ensures p.doTinCay == ConfidenceOf(sc, historyLength)
  {
    LabelsDiffer();
    ClampedShare(sc, historyLength);
    var finalPrediction := if sc.tai > sc.xiu then TAI else XIU;
    var finalScore := if finalPrediction == TAI then sc.tai else sc.xiu;
    var totalScore := sc.tai + sc.xiu;
    WinnerShare(finalScore, totalScore);
    var confidence := (finalScore / totalScore) * 100.0;
    ScaledBounds(confidence, historyLength);
    var scaled := confidence * MinReal(1.0, (historyLength as real) / 100.0);
    Prediction(finalPrediction, MinReal(99.99, MaxReal(10.0, scaled)), AlgorithmNote)
  }

  /** A confidence in [50, 100] scaled by `min(1, n / 100)` stays within [50, 100] from 100 rounds on, and below `n` before. */
  lemma ScaledBounds(confidence: real, historyLength: nat)
    requires 50.0 <= confidence <= 100.0
    ensures historyLength >= 100 ==> confidence * MinReal(1.0, (historyLength as real) / 100.0) >= 50.0
    ensures confidence * MinReal(1.0, (historyLength as real) / 100.0) <= 100.0
    ensures historyLength < 100 ==> confidence * MinReal(1.0, (historyLength as real) / 100.0) <= historyLength as real
  {
    var factor := MinReal(1.0, (historyLength as real) / 100.0);
    ScaleMonotone(confidence, 100.0, factor);
    if historyLength >= 100 {
      assert factor == 1.0;
    } else {
      assert 100.0 * factor == historyLength as real;
    }
  }

  /**
   * The confidence `predict` reports, in closed form: the winner's share of
   * the table times 100, capped at 99.99, from 100 rounds on; below 100
   * rounds the share times the number of rounds, with a floor of 10 (the
   * cap cannot bind there).
   */
  function ConfidenceOf(sc: Scores, historyLength: nat): real
    requires sc.tai >= 0.0 && sc.xiu >= 0.0 && sc.tai + sc.xiu > 0.0
  {
    var share := MaxReal(sc.tai, sc.xiu) / (sc.tai + sc.xiu);
    if historyLength >= 100 then MinReal(99.99, share * 100.0)
    else MaxReal(10.0, share * (historyLength as real))
  }

  /** Clamping the scaled share, as `predict` does, gives `ConfidenceOf`. */
  lemma ClampedShare(sc: Scores, historyLength: nat)
    requires sc.tai >= 0.0 && sc.xiu >= 0.0 && sc.tai + sc.xiu > 0.0
    ensures var share := MaxReal(sc.tai, sc.xiu) / (sc.tai + sc.xiu);
            MinReal(99.99, MaxReal(10.0, share * 100.0 * MinReal(1.0, (historyLength as real) / 100.0)))
              == ConfidenceOf(sc, historyLength)
  {
    var share := MaxReal(sc.tai, sc.xiu) / (sc.tai + sc.xiu);
    WinnerShare(MaxReal(sc.tai, sc.xiu), sc.tai + sc.xiu);
    ScaledBounds(share * 100.0, historyLength);
    ScaledValue(share, historyLength);
  }

  /** The scaled confidence is the share times 100 from 100 rounds on, and the share times `n` below. */
  lemma ScaledValue(share: real, historyLength: nat)
    ensures historyLength >= 100 ==> share * 100.0 * MinReal(1.0, (historyLength as real) / 100.0) == share * 100.0
    ensures historyLength < 100 ==>
              share * 100.0 * MinReal(1.0, (historyLength as real) / 100.0) == share * (historyLength as real)
  {
    var factor := MinReal(1.0, (historyLength as real) / 100.0);
    if historyLength < 100 {
      assert 100.0 * factor == historyLength as real;
      assert share * 100.0 * factor == share * (100.0 * factor);
    }
  }

  /** Multiplying by a non-negative factor keeps an inequality. */
  lemma ScaleMonotone(a: real, b: real, c: real)
    requires a <= b && 0.0 <= c
    ensures a * c <= b * c
  {
    assert b * c - a * c == (b - a) * c;
  }

  /** A score that is at least half of a positive total is between 50% and 100% of it. */
  lemma WinnerShare(finalScore: real, totalScore: real)
    requires 0.0 < totalScore && 0.0 <= finalScore <= totalScore && 2.0 * finalScore >= totalScore
    ensures 0.5 <= finalScore / totalScore <= 1.0
  {
    var q := finalScore / totalScore;
    assert q * totalScore == finalScore;
  }

  /** `predict()` as a function of the store's contents. */
  function PredictFrom(h: seq<Session>): (p: Prediction)
    ensures |h| == 0 ==> p == Prediction(UNDETERMINED, 10.0, NoDataNote)
    ensures |h| == 1 ==> p == Prediction(Opposite(h[0].ketQua), 30.0, OneRoundNote)
    ensures |h| >= 2 ==> (p.duDoan == TAI <==> Tally(h).tai > Tally(h).xiu)
    ensures |h| >= 2 ==> (p.duDoan == TAI || p.duDoan == XIU) && p.giaiThich == AlgorithmNote
    ensures |h| >= 1 ==> 10.0 <= p.doTinCay <= 99.99
    ensures |h| >= 100 ==> p.doTinCay >= 50.0
    ensures 2 <= |h| < 100 ==> p.doTinCay <= MaxReal(10.0, |h| as real)
    ensures |h| >= 2 ==> p.doTinCay == ConfidenceOf(Tally(h), |h|)
  {
    if |h| == 0 then Prediction(UNDETERMINED, 10.0, NoDataNote)
    else
      var recentHistory := SliceFrom(h, -100);
      var lastResult := recentHistory[|recentHistory| - 1].ketQua;
      if |h| == 1 then Prediction(Opposite(lastResult), 30.0, OneRoundNote)
      else
        Decide(Tally(h), |h|)
  }

  // ---------------------------------------------------------------------
  // Two worked histories.
  // ---------------------------------------------------------------------

  /** Ten rounds of Tài, ids 1 to 10. */
  function TenTai(): (h: seq<Session>)
    ensures |h| == 10 && forall i :: 0 <= i < 10 ==> h[i].ketQua == TAI
  {
    seq(10, i requires 0 <= i < 10 => Session(i + 1, TAI))
  }

  lemma TenTaiWindows()
    ensures SliceFrom(TenTai(), -10) == TenTai() && SliceFrom(TenTai(), -20) == TenTai()
    ensures SliceFrom(TenTai(), -30) == TenTai() && SliceFrom(TenTai(), -100) == TenTai()
  {
  }

  lemma TenTaiStreak()
    ensures StreakVote(TenTai()) == Vote(XIU, 50.0)
  {
    var h := TenTai();
    assert TrailingRun(h, TAI) == 10;
    assert TrailingRun(h, XIU) == 0;
  }

  lemma TenTaiAlternation()
    ensures AlternationVote(TenTai(), 1, 6, BaseWeights.dao11, TAI) == Abstain
    ensures AlternationVote(TenTai(), 2, 8, BaseWeights.dao22, TAI) == Abstain
    ensures AlternationVote(TenTai(), 3, 12, BaseWeights.dao33, TAI) == Abstain
  {
    var h := TenTai();
    assert h[8].ketQua == h[9].ketQua && h[6].ketQua == h[8].ketQua && h[4].ketQua == h[7].ketQua;
  }

  lemma TenTaiRepeat()
    ensures RepeatVote(TenTai()) == Vote(XIU, 3.5)
  {
    var h := TenTai();
    assert Labels(h[5..]) == Labels(h[0..5]);
    JoinedMatchesLabels(h[5..], h[0..5]);
  }

  lemma TenTaiCounts()
    ensures NhoiVote(TenTai()) == Vote(TAI, 3.2)
    ensures RatioVote(TenTai()) == Vote(XIU, 30.0)
  {
    CountOfUniform(TenTai(), TAI, XIU);
  }

  /** The eight votes `predict` casts on `TenTai()`, in order. */
  lemma TenTaiVotes()
    ensures Tally(TenTai()) == Apply(Apply(Apply(Apply(Apply(Apply(Apply(Apply(Scores(0.0, 0.0),
              Vote(XIU, 50.0)), Abstain), Abstain), Abstain), Vote(XIU, 3.5)), Vote(TAI, 3.2)), Vote(XIU, 30.0)), Vote(XIU, 1.0))
  {
    TenTaiWindows();
    TenTaiStreak();
    TenTaiAlternation();
    TenTaiRepeat();
    TenTaiCounts();
    assert TenTai()[|TenTai()| - 1].ketQua == TAI;
  }

  /** Crediting those eight votes in order, one at a time. */
  lemma TenTaiCredits()
    ensures Apply(Apply(Apply(Apply(Apply(Apply(Apply(Apply(Scores(0.0, 0.0),
              Vote(XIU, 50.0)), Abstain), Abstain), Abstain), Vote(XIU, 3.5)), Vote(TAI, 3.2)), Vote(XIU, 30.0)), Vote(XIU, 1.0))
            == Scores(3.2, 84.5)
  {
    CreditStep(Scores(0.0, 0.0), XIU, 50.0, Scores(0.0, 50.0));
    CreditStep(Scores(0.0, 50.0), XIU, 3.5, Scores(0.0, 53.5));
    CreditStep(Scores(0.0, 53.5), TAI, 3.2, Scores(3.2, 53.5));
    CreditStep(Scores(3.2, 53.5), XIU, 30.0, Scores(3.2, 83.5));
    CreditStep(Scores(3.2, 83.5), XIU, 1.0, Scores(3.2, 84.5));
  }

  /** A vote adds its weight to its own side and to nothing else. */
  lemma CreditStep(sc: Scores, side: string, w: real, r: Scores)
    requires side == TAI || side == XIU
    requires r == (if side == TAI then Scores(sc.tai + w, sc.xiu) else Scores(sc.tai, sc.xiu + w))
    ensures Apply(sc, Vote(side, w)) == r
  {
    LabelsDiffer();
  }

  lemma TenTaiTally()
    ensures Tally(TenTai()) == Scores(3.2, 84.5)
  {
    TenTaiVotes();
    TenTaiCredits();
  }

  /**
   * Ten rounds of Tài: the streak (50), repeat (3.5), ratio (30) and default
   * (1) votes go to Xỉu and the "nhồi" vote (3.2) to Tài; with ten rounds the
   * 96% share is scaled by 0.1 and lifted to the floor of 10.
   */
  lemma TenTaiScenario()
    ensures PredictFrom(TenTai()) == Prediction(XIU, 10.0, AlgorithmNote)
  {
    TenTaiTally();
    TenTaiWindows();
    var share := 84.5 / (3.2 + 84.5);
    assert share < 1.0;
    assert MinReal(1.0, 10.0 / 100.0) == 0.1;
    assert share * 100.0 * 0.1 < 10.0;
  }

  /** Six alternating rounds Tài, Xỉu, …, Xỉu, ids 1 to 6. */
  function SixAlternating(): (h: seq<Session>)
    ensures |h| == 6 && forall i :: 0 <= i < 6 ==> h[i].ketQua == (if i % 2 == 0 then TAI else XIU)
  {
    seq(6, i requires 0 <= i < 6 => Session(i + 1, if i % 2 == 0 then TAI else XIU))
  }

  lemma SixAlternatingWindows()
    ensures SliceFrom(SixAlternating(), -10) == SixAlternating()
    ensures SliceFrom(SixAlternating(), -20) == SixAlternating()
    ensures SliceFrom(SixAlternating(), -30) == SixAlternating()
  {
  }

  lemma SixAlternatingStreak()
    ensures StreakVote(SixAlternating()) == Abstain
  {
    var h := SixAlternating();
    var p := h[..5];
    assert p[4] == h[4];
    assert TrailingRun(p, XIU) == 0;
    assert TrailingRun(h, XIU) == 1;
    assert TrailingRun(h, TAI) == 0;
  }

  lemma SixAlternatingAlternation()
    ensures AlternationVote(SixAlternating(), 1, 6, BaseWeights.dao11, XIU) == Vote(TAI, 4.5)
  {
    var h := SixAlternating();
    assert h[4].ketQua != h[5].ketQua;
  }

  lemma SixAlternatingTally()
    ensures Tally(SixAlternating()) == Scores(5.5, 0.0)
  {
    SixAlternatingWindows();
    SixAlternatingStreak();
    SixAlternatingAlternation();
    var h := SixAlternating();
    assert AlternationVote(h, 2, 8, BaseWeights.dao22, XIU) == Abstain;
    assert AlternationVote(h, 3, 12, BaseWeights.dao33, XIU) == Abstain;
    assert RepeatVote(h) == Abstain && NhoiVote(h) == Abstain && RatioVote(h) == Abstain;
  }

  /**
   * Six alternating rounds: only the one-by-one alternation (4.5) and the
   * default (1) vote, both for Tài; six rounds scale the 100% share to 6,
   * lifted to 10.
   */
  lemma AlternatingScenario()
    ensures PredictFrom(SixAlternating()) == Prediction(TAI, 10.0, AlgorithmNote)
  {
    SixAlternatingTally();
    assert MinReal(1.0, 6.0 / 100.0) == 0.06;
    assert (5.5 / (5.5 + 0.0)) * 100.0 * 0.06 < 10.0;
  }

  class PredictionEngine {
    const historyMgr: HistoricalDataManager
    const baseWeights: Weights := BaseWeights

    constructor (historyMgr: HistoricalDataManager)
      ensures this.historyMgr == historyMgr
    {
      this.historyMgr := historyMgr;
    }

    /**
     * Runs every voter over the store's latest rounds, adding into the score
     * table section by section, then turns the table into a call.
     */
    method Predict() returns (p: Prediction)
      ensures p == PredictFrom(historyMgr.history)
    {
      var fullHistory := historyMgr.GetHistory();
      var historyLength := |fullHistory|;
      if historyLength == 0 {
        return Prediction(UNDETERMINED, 10.0, NoDataNote);
      }

      var recentHistory := historyMgr.GetRecentHistory(100);
      var lastResult := recentHistory[|recentHistory| - 1].ketQua;

      assert recentHistory[|recentHistory| - 1] == fullHistory[historyLength - 1];
      if historyLength == 1 {
        var duDoan := if lastResult == TAI then XIU else TAI;
        return Prediction(duDoan, 30.0, OneRoundNote);
      }

      var predictionScores := ScoreAll(fullHistory, lastResult);
      p := Conclude(predictionScores, historyLength);
      assert PredictFrom(fullHistory) == Decide(Tally(fullHistory), historyLength);
    }

    /** The voting part of `predict` for a store of at least one round whose last label is `lastResult`. */
    method ScoreAll(fullHistory: seq<Session>, lastResult: string) returns (predictionScores: Scores)
      requires fullHistory == historyMgr.history && |fullHistory| > 0
      requires lastResult == fullHistory[|fullHistory| - 1].ketQua
      ensures predictionScores == Tally(fullHistory)
    {
      predictionScores := Scores(0.0, 0.0);
      var recent30 := historyMgr.GetRecentHistory(30);
      var recent10 := historyMgr.GetRecentHistory(10);
      var recent20 := historyMgr.GetRecentHistory(20);

      predictionScores := ScoreStreak(recent10, predictionScores);
      predictionScores := ScoreAlternation(recent10, recent20, lastResult, predictionScores);
      predictionScores := ScoreRepeat(recent20, predictionScores);
      predictionScores := ScoreMajority(recent10, predictionScores);
      predictionScores := ScoreRatio(recent30, predictionScores);
      predictionScores := Credit(predictionScores, if lastResult == TAI then XIU else TAI, baseWeights.default);
    }

    /** The closing step of `predict`: the higher side, its share of the table, scaled and clamped. */
    method Conclude(predictionScores: Scores, historyLength: nat) returns (p: Prediction)
      requires predictionScores.tai >= 0.0 && predictionScores.xiu >= 0.0
      requires predictionScores.tai + predictionScores.xiu > 0.0
      ensures p == Decide(predictionScores, historyLength)
    {
      var finalPrediction := if predictionScores.tai > predictionScores.xiu then TAI else XIU;
      var finalScore := if finalPrediction == TAI then predictionScores.tai else predictionScores.xiu;
      var totalScore := predictionScores.tai + predictionScores.xiu;
      var confidence := (finalScore / totalScore) * 100.0;
      confidence := confidence * MinReal(1.0, (historyLength as real) / 100.0);
      confidence := MinReal(99.99, MaxReal(10.0, confidence));
      return Prediction(finalPrediction, confidence, AlgorithmNote);
    }

    /** The streak section: the two trailing runs of the last ten. */
    method ScoreStreak(recent10: seq<Session>, predictionScores: Scores) returns (scores: Scores)
      ensures scores == Apply(predictionScores, StreakVote(recent10))
    {
      scores := predictionScores;
      var taiSeq := historyMgr.CalculateCurrentSequence(recent10, TAI);
      var xiuSeq := historyMgr.CalculateCurrentSequence(recent10, XIU);
      if taiSeq >= 4 {
        scores := Credit(scores, XIU, (taiSeq as real) * baseWeights.bet);
      } else if xiuSeq >= 4 {
        scores := Credit(scores, TAI, (xiuSeq as real) * baseWeights.bet);
      }
    }

    /** The alternation section: blocks of one and two in the last ten, blocks of three in the last twenty. */
    method ScoreAlternation(recent10: seq<Session>, recent20: seq<Session>, lastResult: string, predictionScores: Scores)
      returns (scores: Scores)
      ensures scores == Apply(Apply(Apply(predictionScores,
                         AlternationVote(recent10, 1, 6, BaseWeights.dao11, lastResult)),
                         AlternationVote(recent10, 2, 8, BaseWeights.dao22, lastResult)),
                         AlternationVote(recent20, 3, 12, BaseWeights.dao33, lastResult))
    {
      scores := predictionScores;
      if IsAlternating(recent10, 1) && |recent10| >= 6 {
        scores := Credit(scores, if lastResult == TAI then XIU else TAI, baseWeights.dao11);
      }
      if IsAlternating(recent10, 2) && |recent10| >= 8 {
        scores := Credit(scores, if lastResult == TAI then XIU else TAI, baseWeights.dao22);
      }
      if IsAlternating(recent20, 3) && |recent20| >= 12 {
        scores := Credit(scores, if lastResult == TAI then XIU else TAI, baseWeights.dao33);
      }
    }

    /** The repeated-five section over the last twenty. */
    method ScoreRepeat(recent20: seq<Session>, predictionScores: Scores) returns (scores: Scores)
      ensures scores == Apply(predictionScores, RepeatVote(recent20))
    {
      scores := predictionScores;
      if |recent20| >= 10 {
        var last5 := Joined(SliceFrom(recent20, -5));
        var prev5 := Joined(recent20[|recent20| - 10..|recent20| - 5]);
        if last5 == prev5 {
          var first := if |last5| > 0 then last5[..1] else "";
          scores := Credit(scores, if first == TAI then TAI else XIU, baseWeights.mauLapLai);
        }
      }
    }

    /** The "nhồi" section: a label seen five times in the last ten. */
    method ScoreMajority(recent10: seq<Session>, predictionScores: Scores) returns (scores: Scores)
      ensures scores == Apply(predictionScores, NhoiVote(recent10))
    {
      scores := predictionScores;
      if |recent10| >= 7 {
        var taiCount := CountOf(recent10, TAI);
        var xiuCount := CountOf(recent10, XIU);
        if taiCount >= 5 {
          scores := Credit(scores, TAI, baseWeights.uuTienGanDay);
        } else if xiuCount >= 5 {
          scores := Credit(scores, XIU, baseWeights.uuTienGanDay);
        }
      }
    }

    /** The ratio section over the last thirty. */
    method ScoreRatio(recent30: seq<Session>, predictionScores: Scores) returns (scores: Scores)
      ensures scores == Apply(predictionScores, RatioVote(recent30))
    {
      scores := predictionScores;
      if |recent30| >= 10 {
        var f := historyMgr.CalculateFrequency(recent30);
        if AbsReal(f.taiRatio - f.xiuRatio) > 0.3 {
          var nextPred := if f.taiRatio > f.xiuRatio then XIU else TAI;
          scores := Credit(scores, nextPred, (AbsReal(f.taiRatio - f.xiuRatio) * 10.0) * baseWeights.tyLeApDao);
        }
      }
    }
  }
}
