/**
 * The id of the coming round in server1.js: the digits of the latest id,
 * read as a decimal number, plus one; a sentinel when the id has no digit.
 */
module RoundId {

  /** The answer for an id without digits. */
  const UNKNOWN_ID: string := "Không xác định"

  /** `[0-9]`, the complement of the `\D` class. */
  predicate IsDigit(c: char) {
    '0' <= c <= '9'
  }

  /** Every character is a decimal digit. */
  predicate AllDigits(s: string) {
    forall i :: 0 <= i < |s| ==> IsDigit(s[i])
  }

  /** No character is a decimal digit. */
  predicate NoDigits(s: string) {
    forall i :: 0 <= i < |s| ==> !IsDigit(s[i])
  }

  /** `s.replace(/\D/g, '')`: the digits of `s`, in order. */
  function DigitsOf(s: string): (d: string)
    ensures AllDigits(d) && |d| <= |s|
    ensures AllDigits(s) ==> d == s
    ensures d == [] <==> NoDigits(s)
  {
    if s == [] then []
    else
      var rest := DigitsOf(s[..|s| - 1]);
      var c := s[|s| - 1];
      assert forall i :: 0 <= i < |s| - 1 ==> s[..|s| - 1][i] == s[i];
      if IsDigit(c) then rest + [c] else rest
  }

  /** One more character adds itself when it is a digit. */
  lemma DigitsOfSnoc(s: string, c: char)
    ensures DigitsOf(s + [c]) == DigitsOf(s) + (if IsDigit(c) then [c] else [])
  {
    assert (s + [c])[..|s|] == s;
  }

  /** Removing non-digits distributes over concatenation. */
  lemma {:induction false} DigitsOfConcat(a: string, b: string)
    ensures DigitsOf(a + b) == DigitsOf(a) + DigitsOf(b)
    decreases |b|
  {
    if b == [] {
      assert a + b == a;
    } else {
      var b', c := b[..|b| - 1], b[|b| - 1];
      var tail := if IsDigit(c) then [c] else [];
      calc {
        DigitsOf(a + b);
      == { assert a + b == (a + b') + [c]; }
        DigitsOf((a + b') + [c]);
      == { DigitsOfSnoc(a + b', c); }
        DigitsOf(a + b') + tail;
      == { DigitsOfConcat(a, b'); }
        DigitsOf(a) + DigitsOf(b') + tail;
      == { DigitsOfSnoc(b', c); assert b' + [c] == b; }
        DigitsOf(a) + DigitsOf(b);
      }
    }
  }

  /** The value of one digit. */
  function DigitValue(c: char): (v: nat)
    requires IsDigit(c)
    ensures v < 10
  {
    (c as int) - ('0' as int)
  }

  /** The digit of `v`. */
  function DigitChar(v: nat): (c: char)
    requires v < 10
    ensures IsDigit(c) && DigitValue(c) == v
  {
    (('0' as int) + v) as char
  }

  /** `10` to the power `k`. */
  function Pow10(k: nat): (p: nat)
    ensures p >= 1
  {
    if k == 0 then 1 else 10 * Pow10(k - 1)
  }

  /** `parseInt` of a non-empty digit string: its decimal value, below `10^|d|`. */
  function ParseDecimal(d: string): (v: nat)
    requires AllDigits(d)
    ensures v < Pow10(|d|)
  {
    if d == [] then 0
    else
      assert AllDigits(d[..|d| - 1]);
      10 * ParseDecimal(d[..|d| - 1]) + DigitValue(d[|d| - 1])
  }

  /** Leading zeros do not change the value `parseInt` reads. */
  lemma {:induction false} ParseIgnoresLeadingZero(d: string)
    requires AllDigits(d)
    ensures ParseDecimal("0" + d) == ParseDecimal(d)
  {
    if d != [] {
      var z := "0" + d;
      assert z[..|z| - 1] == "0" + d[..|d| - 1];
      assert z[|z| - 1] == d[|d| - 1];
      ParseIgnoresLeadingZero(d[..|d| - 1]);
    } else {
      assert "0" + d == "0";
      assert "0"[..0] == [];
    }
  }

  /** `String(n)`: the decimal form of `n`, without leading zeros. */
  function ShowDecimal(n: nat): (s: string)
    ensures |s| > 0 && AllDigits(s)
    ensures s[0] == '0' ==> s == "0"
  {
    if n < 10 then [DigitChar(n)] else ShowDecimal(n / 10) + [DigitChar(n % 10)]
  }

  /** Reading back the decimal form gives the number. */
  lemma {:induction false} ParseShow(n: nat)
    ensures ParseDecimal(ShowDecimal(n)) == n
  {
    if n >= 10 {
      ParseShow(n / 10);
      var s := ShowDecimal(n);
      assert s[..|s| - 1] == ShowDecimal(n / 10);
    } else {
      assert ShowDecimal(n)[..0] == [];
    }
  }

  /**
   * The derivation of `phien_sau` from `String(latest.phien)`: the sentinel
   * exactly when no digit is left, otherwise the successor of the digits'
   * value.
   */
  function NextRoundId(phien: string): (r: string)
    ensures r == UNKNOWN_ID <==> DigitsOf(phien) == []
    ensures DigitsOf(phien) != [] ==> r == ShowDecimal(ParseDecimal(DigitsOf(phien)) + 1)
  {
    var cleanedPhien := DigitsOf(phien);
    if cleanedPhien == [] then UNKNOWN_ID
    else
      var next := ShowDecimal(ParseDecimal(cleanedPhien) + 1);
      assert !IsDigit(UNKNOWN_ID[0]);
      next
  }

  /** A plain decimal id is followed by the next number. */
  lemma NextOfDecimal(n: nat)
    ensures NextRoundId(ShowDecimal(n)) == ShowDecimal(n + 1)
  {
    var d := ShowDecimal(n);
    assert DigitsOf(d) == d;
    ParseShow(n);
  }

  /** Non-digit decoration around the number, such as a `#` prefix, does not change the next id. */
  lemma NextIgnoresDecoration(prefix: string, n: nat, suffix: string)
    requires NoDigits(prefix) && NoDigits(suffix)
    ensures NextRoundId(prefix + ShowDecimal(n) + suffix) == ShowDecimal(n + 1)
  {
    var d := ShowDecimal(n);
    assert DigitsOf(prefix) == [] && DigitsOf(suffix) == [] && DigitsOf(d) == d;
    DigitsOfConcat(prefix, d);
    DigitsOfConcat(prefix + d, suffix);
    assert DigitsOf(prefix + d + suffix) == d;
    ParseShow(n);
  }
}
