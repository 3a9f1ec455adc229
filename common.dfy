/** Small value helpers shared by the two predictor variants. */
module Common {

  /** The two outcome labels, as the sources spell them (precomposed code points). */
  const TAI: string := "Tài"
  const XIU: string := "Xỉu"

  /** The labels differ from their first character on, and each has three characters. */
  lemma LabelsDiffer()
    ensures TAI != XIU && |TAI| == 3 && |XIU| == 3
  {
    assert TAI[0] != XIU[0];
  }

  /** A value that may be missing: JavaScript's `null` / `undefined`. */
  datatype Option<T> = None | Some(value: T)

  function Min(a: int, b: int): int { if a <= b then a else b }

  function Max(a: int, b: int): int { if a >= b then a else b }

  function Abs(a: int): int { if a < 0 then -a else a }

  function MinReal(a: real, b: real): real { if a <= b then a else b }

  function MaxReal(a: real, b: real): real { if a >= b then a else b }

  function AbsReal(a: real): real { if a < 0.0 then -a else a }
}
