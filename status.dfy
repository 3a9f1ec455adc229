/**
 * The round records of server1.js and their classification. The feed lists
 * rounds newest first: index 0 is the latest round.
 */
module RoundStatus {

  /** One raw round as the advanced predictor reads it: its id and its dice sum. */
  datatype Round = Round(phien: string, tong: int)

  /** The two-letter size code: 'T' (Tài, big) or 'X' (Xỉu, small). */
  datatype TX = T | X

  /** The parity code: 'C' (chẵn, even) or 'L' (lẻ, odd). */
  datatype CL = C | L

  /** A classified round. */
  datatype Status = Status(phien: string, tong: int, taixiu: TX, chanle: CL)

  /** The other size code. */
  function Flip(v: TX): (w: TX)
    ensures w != v
  {
    if v == T then X else T
  }

  /** `tong % 2 === 0`; JavaScript's truncating remainder and Dafny's agree on whether it is zero. */
  predicate IsEven(n: int) {
    n % 2 == 0
  }

  /** `getHistoryStatus`: each round becomes its status, in the same order. */
  function GetHistoryStatus(history: seq<Round>): (sh: seq<Status>)
    ensures |sh| == |history|
    ensures forall i :: 0 <= i < |history| ==>
              sh[i].phien == history[i].phien && sh[i].tong == history[i].tong
    ensures forall i :: 0 <= i < |history| ==> (sh[i].taixiu == T <==> history[i].tong >= 11)
    ensures forall i :: 0 <= i < |history| ==> (sh[i].chanle == C <==> IsEven(history[i].tong))
  {
    seq(|history|, i requires 0 <= i < |history| =>
      Status(history[i].phien, history[i].tong,
             if history[i].tong >= 11 then T else X,
             if history[i].tong % 2 == 0 then C else L))
  }

  /** Classification is per round: a prefix of the rounds classifies to the prefix of the statuses. */
  lemma StatusOfPrefix(history: seq<Round>, n: nat)
    requires n <= |history|
    ensures GetHistoryStatus(history[..n]) == GetHistoryStatus(history)[..n]
  {
  }

  /** How many entries of `s` carry the size code `v`. */
  function CountTX(s: seq<Status>, v: TX): (n: nat)
    ensures n <= |s|
  {
    if s == [] then 0 else CountTX(s[..|s| - 1], v) + (if s[|s| - 1].taixiu == v then 1 else 0)
  }

  /** Every entry is 'T' or 'X', so the two counts make up the whole window. */
  lemma {:induction false} CountsCover(s: seq<Status>)
    ensures CountTX(s, T) + CountTX(s, X) == |s|
  {
    if s != [] {
      CountsCover(s[..|s| - 1]);
    }
  }
}
