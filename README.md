# Tài/Xỉu predictors: session store, weighted voters and three-model fusion

This project models and verifies the deterministic core of two dice-round
predictors. Both keep a history of Sic Bo rounds, run small heuristic voters
over recent windows and fuse the votes into a Tài (big) or Xỉu (small) call
with a confidence.

- **`server.js`**, modules `HistoryStore` and `VoteEngine`:
  - `HistoricalDataManager` is a store of rounds. It holds at most a fixed
    number of rounds, each id once, in ascending id order.
  - `PredictionEngine.predict` adds fixed weights into a two-entry score
    table, picks the larger entry (Xỉu on a tie), scales the confidence by the
    length of the history and clamps it to [10, 99.99].
  - The history is **oldest first**: the last entry is the latest round.
- **`server1.js`**, modules `RoundStatus`, `DiceSums`, `Analysers`, `Fusion`
  and `RoundId`:
  - every round is classified by its dice sum;
  - three analysers look at the history: a streak scan plus a Markov chain, a
    balance check over two windows, and shape patterns;
  - `predictAdvanced` fuses their integer certainties and caps the confidence
    at 60 unless two analysers back the winner;
  - the enumeration of the 216 throws of three dice is modelled as counts;
  - the id of the coming round is derived from the digits of the latest id;
  - the history is **newest first**: index 0 is the latest round.
- `Common` holds the two labels, `Option`, and `Min`/`Max`/`Abs` over
  integers and reals.

## Form of the model

State that the source changes in place is imperative code:
- `HistoricalDataManager` is a class with a `history: seq<Session>` field.
  `AddSession` and `Push` reassign that field under `modifies this`, and they
  keep `Valid()`: ids ascending and never 0, length within the capacity.
- Loops are `method`s with invariants:
  - the counting and backward-scan loops of the store;
  - the streak and transition loops of the Markov analyser;
  - the scoring and agreement loops of the fusion;
  - the triple loop over the dice.

Each method is proved equal to a specification function, for example:
- `CalculateFrequency` equals `FrequencyOf`;
- `Predict` equals `PredictFrom`;
- `AnalyzeMarkovChainAndStreak` equals `MarkovOf`;
- `PredictAdvanced` equals `AdvancedOf`;
- the map built by `TrueSumCounts` agrees with the reference count `Ways`.

The promised properties are then proved about those functions. The `map`,
forEach and slicing helpers of the source are pure functions.

Numbers are modelled as follows:
- Weights and ratios of `server.js` are exact `real`s.
- Certainties of `server1.js` are integers.
- `Math.round(x / t * 100)` is `(200x + t) / (2t)`. `RoundPercent` proves it
  is the nearest integer, with halves rounded up.
- JavaScript's truncating `%` is written out (`JsRem6`) where a negative sum
  could reach it.

Behaviour of the code worth knowing:
- `addSession` pushes, then trims to the capacity, then sorts. So at capacity
  the round with the smallest id held before is evicted, and with a positive
  capacity the newcomer always survives, even when its id is the smallest
  (`NewcomerSurvivesEviction`).
- `getRecentHistory(count)` is `slice(-count)`:
  - a count of 0 gives the whole store, since `-0` is `0`;
  - a negative count drops rounds from the front;
  - the result is empty only for an empty store, or for a negative count
    whose size is at least the store's length.
- A score tie in `predict` goes to Xỉu whatever the default voter says.
- The voters are the ones written in `predict`:
  - streak;
  - three alternation checks;
  - a five-against-five repeat;
  - "nhồi";
  - ratio skew;
  - default.

  The repeat voter credits Xỉu every time it fires, because it compares a
  one-character string with the three-character `'Tài'`.
- With ten rounds of Tài, the repeat, "nhồi" and ratio voters also fire. The
  call is still Xỉu at the floor of 10 (`TenTaiScenario`).
- `isAlternating` compares the first half of the window with the single entry
  `recent[groupSize]`. So a mixed second block passes
  (`IsAlternatingAcceptsMixedBlock`).

## Model

| member | source | states |
|---|---|---|
| Common.LabelsDiffer | server.js:45-46 | The two labels differ and each has three characters. |
| HistoryStore.HasPhien | server.js:22 | The duplicate test of `addSession`: some stored round carries the id. `AddSession`'s contract rejects exactly these. |
| HistoryStore.SliceFrom | server.js:36 | `slice(start)`: a suffix of the list, of length min(n, -start) for a negative start and max(n - start, 0) otherwise. |
| HistoryStore.Insert | server.js:27 | Inserting into the sorted list adds exactly one element, and its multiset of rounds gains exactly the new round. |
| HistoryStore.InsertSorted | server.js:27 | Inserting into a list sorted by id keeps it sorted. |
| HistoryStore.InsertAscending | server.js:27 | Inserting an id not yet present into a strictly ascending list keeps it strictly ascending. |
| HistoryStore.SortByPhien | server.js:27 | The sort by `a.phien - b.phien` returns a permutation of its input that is sorted by id. |
| HistoryStore.InsertAtEnd | server.js:27 | A round whose id is not below any stored id is placed at the end. |
| HistoryStore.SortOfSorted | server.js:27 | Sorting a list that is already sorted returns it unchanged. |
| HistoryStore.Trim | server.js:24-26 | The trim keeps the last min(n, cap) rounds, in order. |
| HistoryStore.Admit | server.js:23-27 | Push, trim and sort give min(n+1, cap) rounds, sorted by id, that are a permutation of the trimmed pushed list. |
| HistoryStore.AdmitProperties | server.js:22-28 | After push, trim and sort, the store stays strictly ascending and holds min(n+1, cap) rounds. Every round in it was held before or is the newcomer; the newcomer stays when cap > 0. Below capacity nothing is lost. At capacity exactly the old first round, which has the smallest id, is evicted. |
| HistoryStore.KeptOfHistory | server.js:24-26 | The rounds that survive the trim were held before and never carry the newcomer's id. At capacity they lack exactly the oldest round. |
| HistoryStore.AdmitKeepsIds | server.js:22-28 | Admission keeps ids ascending, non-zero and within the capacity. |
| HistoryStore.AdmitIsInsert | server.js:23-27 | With a positive capacity, push, trim and sort equal inserting the newcomer into the rounds the trim keeps. |
| HistoryStore.NewcomerSurvivesEviction | server.js:23-27 | Capacity 2 holding ids 5 and 7: adding id 3 gives [3, 7]. The newcomer with the lowest id survives and 5 is evicted. |
| HistoryStore.AdmitNewest | server.js:23-27 | A round newer than all stored ones is appended. At capacity the oldest round makes room, so the store is a sliding window. |
| HistoryStore.CountOf | server.js:44-47 | A label count never exceeds the window length. |
| HistoryStore.CountsBounded | server.js:44-48 | The Tài count plus the Xỉu count is at most the window length. |
| HistoryStore.CountOfUniform | server.js:44-47 | A window with a single label counts every entry for that label and none for any other. |
| HistoryStore.FrequencyOf | server.js:39-56 | An empty window gives all zeros. Otherwise: total = length; taiCount and xiuCount are the label counts, with taiCount + xiuCount <= total; each ratio is count/total; the two ratios are non-negative and add up to at most 1. |
| HistoryStore.Share | server.js:53-54 | A ratio `count / total` as an exact rational, for a positive total; `FrequencyOf` uses it for both ratios. |
| HistoryStore.SharesBounded | server.js:53-54 | Two counts whose sum fits in the total give non-negative shares whose sum is at most 1. |
| HistoryStore.TrailingRun | server.js:58-66 | The trailing run k satisfies 0 <= k <= n. The last k entries carry the label. When k < n, entry n-1-k does not. |
| HistoryStore.TrailingRunExample | server.js:58-66 | For Xỉu, Xỉu, Xỉu, Tài the Tài run is 1 and the Xỉu run is 0. |
| HistoryStore.HistoricalDataManager.constructor | server.js:15-18 | The store starts empty and valid, with the given capacity. |
| HistoryStore.HistoricalDataManager.AddSession | server.js:20-29 | Returns true iff the record is present, its id is non-zero and its id is new. On false the history is unchanged. On true the history is push-trim-sort of the old one: ascending, within capacity, containing the newcomer, of length min(n+1, cap), and at capacity missing exactly the old first round. |
| HistoryStore.HistoricalDataManager.Push | server.js:23-27 | The accepting branch keeps the store valid and leaves exactly push-trim-sort of the old history. |
| HistoryStore.HistoricalDataManager.GetHistory | server.js:31-33 | Returns a value equal to the whole store, which is left as it was. |
| HistoryStore.HistoricalDataManager.GetRecentHistory | server.js:35-37 | For count > 0: the last min(count, n) rounds in stored order. For count 0: the whole store. For a negative count: the store without its first min(-count, n) rounds. |
| HistoryStore.HistoricalDataManager.CalculateFrequency | server.js:39-56 | The counting loop returns `FrequencyOf` the window, so taiCount + xiuCount <= totalCount = length. |
| HistoryStore.HistoricalDataManager.CalculateCurrentSequence | server.js:58-66 | The backward scan returns the trailing run of the label. |
| VoteEngine.Opposite | server.js:105 | The answer is Xỉu iff the label is Tài, and Tài for anything else. |
| VoteEngine.Credit | server.js:117-160 | `scores[side] += w`: for a label the total grows by w. The other entry is unchanged, and an unknown label changes nothing. |
| VoteEngine.Apply | server.js:117-160 | An abstention leaves the table unchanged. A well-formed vote lowers no entry and raises the total by exactly its weight. |
| VoteEngine.DuDoanVi | server.js:85-92 | A falsy sum (0) gives no guess. Otherwise three consecutive sums start at `tong % 6 + 10`, with JavaScript's sign rule for a negative sum. |
| VoteEngine.JsRem6 | server.js:88 | JavaScript's `a % 6`: in (-6, 6), with the sign of `a` (0 allowed), and differing from `a` by a multiple of 6. |
| VoteEngine.DuDoanViForDiceSums | server.js:85-92 | For dice sums 3..18 every guessed sum lies in 10..17, and the guess repeats with period 6. |
| VoteEngine.IsAlternating | server.js:174-178 | False below 2g entries. Otherwise true iff each of the first g entries of the last 2g differs from the entry at offset g. |
| VoteEngine.IsAlternatingIgnoresTail | server.js:177 | Only the first half of the window and its pivot matter: entries after the pivot never change the answer. |
| VoteEngine.IsAlternatingAcceptsMixedBlock | server.js:177 | With blocks of two, T T X T counts as alternating although its second block is mixed. |
| VoteEngine.Joined | server.js:135-136 | `map(r => r.ket_qua).join("")`: joining n known labels gives a string of 3n characters. |
| VoteEngine.JoinedMatchesLabels | server.js:135-137 | For equal-length windows of known labels, the joined strings are equal iff the label sequences are equal. |
| VoteEngine.StreakVote | server.js:117-120 | A vote is cast iff a trailing run of Tài or of Xỉu reaches 4. It goes against the last label with weight 5 times that run. |
| VoteEngine.AlternationVote | server.js:123-131 | A vote is cast iff the window alternates and is long enough. It goes against the last label with the given weight. |
| VoteEngine.RepeatVote | server.js:134-140 | A vote is cast iff there are at least 10 rounds and the last five joined equal the five before. It always goes to Xỉu with weight 3.5. |
| VoteEngine.NhoiVote | server.js:143-148 | A vote is cast iff there are at least 7 rounds and one label appears 5 times (Tài checked first: Tài is backed iff it appears 5 times). The backed label has weight 3.2, appears at least 5 times and, in at most 10 rounds, is never outnumbered. |
| VoteEngine.RatioVote | server.js:151-157 | A vote is cast iff there are at least 10 rounds and the two ratios differ by more than 0.3. It goes to the strictly rarer label with weight exactly 10 times 3.0 times the absolute difference of the two ratios, which lies in (9, 30]. |
| VoteEngine.RatioOrder | server.js:152-154 | The two shares compare exactly as the counts do, and they differ by at most 1. |
| VoteEngine.Tally | server.js:109-160 | Both scores are non-negative and together at least 1, because the default vote always fires. |
| VoteEngine.Decide | server.js:163-169 | The call is Tài iff the Tài score is strictly larger, otherwise Xỉu, with the algorithm note. The confidence is exactly `ConfidenceOf` of the table and n, with w the larger score and s the total: min(99.99, 100·w/s) from 100 rounds on, max(10, n·w/s) below. It therefore lies in [10, 99.99], is at least 50 from 100 rounds on and at most max(10, n) below. |
| VoteEngine.ClampedShare | server.js:166-169 | Scaling 100·w/s by min(1, n/100) and clamping to [10, 99.99] equals the closed form `ConfidenceOf`: the floor cannot bind from 100 rounds on, and the cap cannot bind below. |
| VoteEngine.ScaledValue | server.js:168 | A share times 100 scaled by min(1, n/100) is the share times 100 from 100 rounds on and the share times n below. |
| VoteEngine.ScaledBounds | server.js:168-169 | A share in [50, 100] scaled by min(1, n/100) stays in [50, 100] from 100 rounds on and is at most n before. |
| VoteEngine.PredictFrom | server.js:94-172 | Empty store: "Chưa xác định" at 10. One round: the opposite label at 30. Otherwise: Tài iff the Tài score is strictly larger, the algorithm note, and a confidence of exactly `ConfidenceOf(Tally(h), n)`: min(99.99, 100·w/s) from 100 rounds on and max(10, n·w/s) below. It lies in [10, 99.99], is at least 50 from 100 rounds on and at most max(10, n) below. |
| VoteEngine.TenTaiStreak | server.js:117-120 | Ten rounds of Tài: the streak voter bets 50 on Xỉu. |
| VoteEngine.TenTaiTally | server.js:109-160 | Ten rounds of Tài give the score table (Tài 3.2, Xỉu 84.5). |
| VoteEngine.TenTaiVotes | server.js:109-160 | Ten rounds of Tài: the eight voters cast Xỉu 50, three abstentions, Xỉu 3.5, Tài 3.2, Xỉu 30 and the default Xỉu 1, in that order. |
| VoteEngine.TenTaiCredits | server.js:117-160 | Crediting those eight votes to an empty table gives Tài 3.2 and Xỉu 84.5. |
| VoteEngine.CreditStep | server.js:117-160 | A vote for a label adds its weight to that label's entry and to nothing else. |
| VoteEngine.TenTaiScenario | server.js:94-172 | Ten rounds of Tài: Xỉu at the floor confidence 10. |
| VoteEngine.SixAlternatingAlternation | server.js:123-125 | Six alternating rounds ending in Xỉu: the one-by-one check bets 4.5 on Tài. |
| VoteEngine.SixAlternatingTally | server.js:109-160 | Six alternating rounds give the score table (Tài 5.5, Xỉu 0). |
| VoteEngine.AlternatingScenario | server.js:94-172 | Six alternating rounds: Tài at the floor confidence 10. |
| VoteEngine.PredictionEngine.constructor | server.js:71-83 | The engine reads the given store. |
| VoteEngine.PredictionEngine.Predict | server.js:94-172 | The step-by-step prediction equals `PredictFrom` of the store. |
| VoteEngine.PredictionEngine.ScoreAll | server.js:109-160 | The sections, run in order on a fresh table, give `Tally` of the store. |
| VoteEngine.PredictionEngine.Conclude | server.js:163-171 | The closing step: the winner, its share, the scaling and the clamp, as in `Decide`. |
| VoteEngine.PredictionEngine.ScoreStreak | server.js:117-120 | The streak section adds exactly the streak vote. |
| VoteEngine.PredictionEngine.ScoreAlternation | server.js:123-131 | The alternation section adds exactly the three alternation votes, in order. |
| VoteEngine.PredictionEngine.ScoreRepeat | server.js:134-140 | The repeat section adds exactly the repeat vote. |
| VoteEngine.PredictionEngine.ScoreMajority | server.js:143-148 | The "nhồi" section adds exactly the majority vote. |
| VoteEngine.PredictionEngine.ScoreRatio | server.js:151-157 | The ratio section adds exactly the ratio vote. |
| RoundStatus.Flip | server1.js:103 | The other code always differs. |
| RoundStatus.GetHistoryStatus | server1.js:65-70 | Same length, order, ids and sums. The code is 'T' iff `tong >= 11`, and the parity is 'C' iff `tong` is even. |
| RoundStatus.IsEven | server1.js:69 | The parity test `tong % 2 === 0`; `GetHistoryStatus` gives 'C' exactly when it holds. |
| RoundStatus.StatusOfPrefix | server1.js:65-70 | Classifying a prefix gives the prefix of the classification. |
| RoundStatus.CountTX | server1.js:148-150 | A code count never exceeds the window. |
| RoundStatus.CountsCover | server1.js:148-153 | The T count plus the X count is the window length. |
| DiceSums.Die | server1.js:49-51 | One die shows s in exactly one way when 1 <= s <= 6, and in none otherwise. |
| DiceSums.TwoDiceClosed | server1.js:50-51 | Two dice show s in s-1 ways for 2..7, in 13-s ways for 8..12, and in none otherwise. |
| DiceSums.WaysSplit | server1.js:49-55 | The three-dice count is the sum of the two-dice counts over the first die's six faces. |
| DiceSums.SplitTable | server1.js:47-56 | The split count equals the table 1, 3, 6, 10, 15, 21, 25, 27, 27, 25, 21, 15, 10, 6, 3, 1 on 3..18 and is 0 elsewhere. |
| DiceSums.WaysTable | server1.js:47-56 | The number of throws giving s is the table entry on 3..18 and 0 elsewhere. |
| DiceSums.TableTotals | server1.js:57 | The table adds up to `totalOutcomes` = 216, and exactly half of it lies on sums 11..18. |
| DiceSums.WaysSymmetric | server1.js:49-55 | Sums s and t with s + t = 21 are reached by equally many throws. |
| DiceSums.SplitSymmetric | server1.js:49-55 | Mirroring every die maps the split count of s to that of 21 - s. |
| DiceSums.SameSplitSameWays | server1.js:49-55 | Sums with the same split over the first die have the same number of throws. |
| DiceSums.CountThrow | server1.js:52-53 | Incrementing the entry of one throw's sum, creating it on first sight, keeps the map an exact tally of the throws seen. |
| DiceSums.NextSecond | server1.js:50-55 | A finished third die is one more value of the second. |
| DiceSums.NextFirst | server1.js:49-55 | A finished second die is one more value of the first. |
| DiceSums.AllThrowsSeen | server1.js:47-56 | Once all 216 throws are counted, the keys are exactly 3..18, each with its number of throws. |
| DiceSums.CountThirdDie | server1.js:51-54 | The innermost loop counts the six throws with the first two dice fixed. |
| DiceSums.TrueSumCounts | server1.js:47-56 | The triple loop builds a map whose keys are exactly 3..18, each counting the throws with that sum. |
| DiceSums.CountsFromTable | server1.js:47-57 | A map holding the table's counts on 3..18 adds up, from any s on, like the table from index s - 3. |
| DiceSums.CountsTotal | server1.js:47-57 | The map `TrueSumCounts` returns adds up to `totalOutcomes` = 216 over the sums 3..18. |
| Analysers.RoundPercent | server1.js:126 | The result r satisfies r*t <= 100x + t/2 < (r+1)*t. That makes it `Math.round(x / t * 100)` on exact rationals. |
| Analysers.RoundPercentOfMajority | server1.js:126 | When the larger count is at least half of the total, its rounded percentage lies in [50, 100]. |
| Analysers.RoundPercentOfAll | server1.js:255-258 | A side holding the whole total rounds to exactly 100. |
| Analysers.RunFrom | server1.js:86-92 | From index i, the loop runs over entries below min(n, 15) that repeat the newest code. It stops at the first entry that differs. |
| Analysers.Streak | server1.js:84-92 | `streakCount` k satisfies 1 <= k <= min(n, 15). The first k codes equal the newest one. The code at index k differs when k < min(n, 15). |
| Analysers.Bump | server1.js:117-118 | Counting one transition raises the entry's total by one. |
| Analysers.TransitionCount | server1.js:113-119 | `transitions[a+b][next]` after n rounds: at most max(0, n - 2), one per position from 2 on. |
| Analysers.Tracks | server1.js:113-119 | The table holds a key exactly for the contexts seen, each with its T and X counts. |
| Analysers.CountTransition | server1.js:114-119 | Reading one more round keeps the table an exact count of every pair and what followed it. |
| Analysers.MarkovOf | server1.js:77-136 | Below 5 rounds: no prediction, certainty 0. No prediction implies certainty 0. A prediction has certainty in [50, 100]. With a streak of at least 4, the newest code is predicted iff the streak is below 7. |
| Analysers.MarkovStreakBranch | server1.js:93-109 | A streak of 4..6 predicts the streak code at 50 + 5k. Longer streaks predict the other code at 50 + 2(k-7). Both stay at most 80. |
| Analysers.MarkovChainBranch | server1.js:113-133 | With the newest context (s[1], s[0]): a prediction iff the context was followed before; 'T' iff T followed more often ('X' on a tie); certainty = the rounded share of the larger count. |
| Analysers.AnalyzeMarkovChainAndStreak | server1.js:77-136 | The streak loop and the transition-table loop return `MarkovOf` the history. |
| Analysers.Skew | server1.js:152-153 | The absolute difference of the T and X counts is at most the window length and has the same parity. |
| Analysers.IsMinority | server1.js:155-167 | The code predicted by the balance analyser is strictly the rarer one in its window; `AnalyzeMultiTimeframeBalance` states this for both windows. |
| Analysers.AnalyzeMultiTimeframeBalance | server1.js:139-176 | Below 30 rounds: no prediction. A prediction is made iff the 15-round skew is at least 4 or the 30-round skew is at least 7. With the short skew, the rarer code at min(10d, 80), which is at least 50. Otherwise the long skew gives the rarer code at min(8d, 75), at least 64. |
| Analysers.AnalyzeHeuristicPatterns | server1.js:179-198 | Below 5 rounds: no prediction. A prediction is made iff r0 != r1 and r2 = r3. It follows r0 at 75 when r1 = r2 ("3-2-1"), and breaks with it at 70 otherwise ("1-1-2"). |
| Fusion.Band | server1.js:307 | Seven ascending sums: 11..17 for Tài, otherwise 4..10. |
| Fusion.InsertByScore | server1.js:328-329 | Insertion adds exactly the new value. |
| Fusion.InsertByScoreSorted | server1.js:328-329 | Insertion keeps the order by descending score. |
| Fusion.InsertByScoreDistinct | server1.js:328-329 | Inserting a new value into distinct values keeps them distinct. |
| Fusion.SortByScore | server1.js:328-329 | The sort keeps the same values, is ordered by descending score and keeps distinct values distinct. |
| Fusion.InsertByScorePermutes | server1.js:328-329 | Inserting into the sorted tail adds exactly one occurrence of the new value. |
| Fusion.SortByScorePermutes | server1.js:328-329 | The sort is a permutation of its input: every value keeps its number of occurrences. |
| Fusion.PredictSums | server1.js:304-334 | Three distinct sums from the band of the call, best first. No sum left out scores above the third. |
| Fusion.TopThree | server1.js:328-331 | The first three of a distinct list sorted by descending score are its three best. |
| Fusion.ModelsOf | server1.js:229-233 | `allModels`: the Markov, balance and heuristic analysers in that order, each of weight 1. Each one that predicts adds a positive score. |
| Fusion.ScoreOf | server1.js:235-238 | `scores[v]` after the loop: 0 when no analyser predicts v. |
| Fusion.LinesOf | server1.js:235-239 | `explanation` after the loop: at most one description line per analyser. |
| Fusion.LinesOfConcat | server1.js:235-239 | The lines of a concatenation are the lines of the first part followed by those of the second, so the lines follow the analysers' order. |
| Fusion.LinesOfOne | server1.js:235-239 | One analyser adds its own description when it predicts and no line otherwise. |
| Fusion.BreakdownOf | server1.js:235-246 | `predictionBreakdown` after the loop: one entry per explanation line, at most one per analyser. |
| Fusion.Backing | server1.js:271-275 | At most one backer per analyser. |
| Fusion.Agreeing | server1.js:270-275 | `agreementCount` never exceeds the number of breakdown entries. |
| Fusion.Code | server1.js:272 | `finalPrediction === 'Tài' ? 'T' : 'X'`: the code is T iff the label is Tài. |
| Fusion.AgreeingIsBacking | server1.js:270-275 | `agreementCount` over the breakdown is the number of analysers predicting the code. |
| Fusion.FinalLabel | server1.js:252-266 | Xỉu iff the X score is strictly larger, Tài otherwise (a tie and a zero total included). |
| Fusion.FinalConfidence | server1.js:252-266 | The confidence before the cap lies in [50, 100]. With a positive total and unequal scores it is the rounded share of the larger one. On a tie or a zero total it is 50. |
| Fusion.Capped | server1.js:276-278 | The result stays in [50, 100]. It is above 60 only with at least two agreeing analysers. It is unchanged with two or more, and min(c, 60) with fewer. |
| Fusion.Fuse | server1.js:248-280 | Xỉu iff the X score is strictly larger, else Tài. The confidence is in [50, 100]. It is above 60 only with at least two backers of the call. With two backers it is the pre-cap confidence (the rounded share of the larger score, or 50 on a tie or zero total). With fewer it is that value capped at 60. The sums are `PredictSums` of the call's band. |
| Fusion.AdvancedOf | server1.js:213-296 | Below 15 rounds: "Chưa đủ dữ liệu" with no sums, confidence 0 and the wait remark. Otherwise a confidence in [50, 100]. |
| Fusion.PredictAdvanced | server1.js:210-296 | The step-by-step fusion equals `AdvancedOf` the history. |
| Fusion.FuseModels | server1.js:248-295 | The decision, the agreement loop and the cap give `Fuse` of the model list. |
| Fusion.ScoreModels | server1.js:235-246 | The loop over `allModels` leaves the per-code scores, the explanation lines and the breakdown of the predicting analysers. |
| Fusion.CountAgreement | server1.js:270-275 | The loop counts the breakdown entries that predict the target code. |
| Fusion.ScoreNeedsBacking | server1.js:235-238 | With positive scores, a code scores 0 iff no analyser backs it. |
| Fusion.LinesPerBacker | server1.js:235-239 | One explanation line per predicting analyser. |
| Fusion.NoBackingDefaultsToTai | server1.js:263-266 | With no analyser predicting: Tài at 50, and the "no basis" remark as the only line. |
| Fusion.LoneBackerIsCapped | server1.js:252-278 | A lone predicting analyser decides the call, and its 100% share is cut to 60. |
| Fusion.TieGoesToTaiAtFifty | server1.js:252-278 | Equal scores, positive or zero, give Tài at 50 whatever the agreement count. |
| RoundId.DigitsOf | server1.js:368 | Only digits are kept, no more than were there, and an all-digit id is unchanged. The result is empty iff the id has no digit. |
| RoundId.DigitsOfConcat | server1.js:368 | Removing non-digits distributes over concatenation. |
| RoundId.ShowDecimal | server1.js:372 | `String(n)` is a non-empty digit string without a leading zero (except "0"). |
| RoundId.ParseDecimal | server1.js:369 | `parseInt` of a digit string of length k: a value below 10^k. |
| RoundId.ParseIgnoresLeadingZero | server1.js:369 | A leading zero does not change the value read. |
| RoundId.ParseShow | server1.js:369-372 | Parsing the decimal form of n gives n back. |
| RoundId.NextRoundId | server1.js:367-375 | The sentinel "Không xác định" iff no digit remains. Otherwise the decimal form of the digits' value plus one; `ParseShow`, `NextOfDecimal` and `NextIgnoresDecoration` below turn this into "the id after n is n + 1, whatever surrounds the digits". |
| RoundId.NextOfDecimal | server1.js:367-375 | The id after the decimal id n is n + 1. |
| RoundId.NextIgnoresDecoration | server1.js:367-375 | Non-digit text around a decimal id does not change the next id. |

## Left out

- The HTTP layer is not modelled: Express routes, error middleware and
  `listen` (server.js:205-236, server1.js:340-402). Nor is the endpoint's
  own length check or its response assembly.
- `RoundId.NextRoundId` covers only the derivation of `phien_sau`.
- Network and timers are not modelled: the axios calls, the retry and backoff
  interceptor (server1.js:20-41), the `setInterval` poller and the
  `NodeCache` snapshot (server.js:8, 188-202).
- The history arrives as a parameter.
- Logging is not modelled: the `console.log` tracing in `predictAdvanced`.
- Rendering is not modelled: `buildResult`'s `toFixed(2)` (server.js:180-182).
  A `Prediction` carries the unrounded confidence.
- Explanations are tags (`Analysers.Note`, `Fusion.Line`), not the text the
  source builds. `giai_thich` is kept as a list of lines, not joined with
  spaces.
- Floating point is not modelled. Weights, ratios and the confidence of
  `predict` are exact reals, and `Math.round` is exact integer rounding. The
  source's doubles can differ right at a boundary, for example a ratio gap
  of exactly 0.3 or a share that lands on a half.
- Fusion.PredictSums: the per-sum score, computed with floating point at
  server1.js:309-326, is a parameter. Only the choice of the three
  best-scoring sums of the band is modelled.
- Fusion.PredictSums, sort order: `Array.prototype.sort` is modelled as a
  stable insertion sort, and a `NaN` score is not considered.
- The probability division of `getTrueSumProbabilities` (server1.js:57-62)
  is floating point. `DiceSums.TrueSumCounts` stops at the integer counts,
  and `CountsTotal` shows that they add up to `totalOutcomes`.
- The Fusion dynamic weights are fixed at 1, as the source never changes
  them. So the `Fusion.Model.weight` values are natural numbers.
- HistoryStore.Session: the id `phien` is an integer. An id that is a string
  or a non-integer number is not modelled, and neither are the loose
  equalities and coercions of `a.phien - b.phien` on such ids. Of the falsy
  ids, only 0 is rejected, since that is the only falsy integer.
- HistoryStore.HistoricalDataManager.constructor: the capacity is a natural
  number. A negative capacity is not modelled. The source's default of 500
  is the caller's choice.
- HistoryStore.HistoricalDataManager.CalculateFrequency: a `null` subset is
  the empty sequence.
- HistoryStore.HistoricalDataManager.CalculateCurrentSequence: a `null`
  subset is the empty sequence, and gives a run of 0 as the source's guard
  does.
- RoundStatus.GetHistoryStatus: `tong` is an integer. A missing or
  non-numeric `tong`, which JavaScript would compare and reduce loosely, is
  not modelled.
- A window whose label is neither Tài nor Xỉu is counted and stored as
  written. `JoinedMatchesLabels` assumes the two known labels, though, because
  an unknown label could make joined strings agree across different splits.
- RoundId.NextRoundId: `parseInt` is exact. The source loses precision beyond
  2^53, which is not modelled, and `String(latest.phien)` of a non-string id
  is taken to be the id's text.
- Concurrency is not modelled. The store is used by one caller at a time.
