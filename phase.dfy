/** `myfftPhase` of the three C programs: the phase, in degrees, of complex bin k of
    an interleaved transform buffer, shifted by a calibration offset and wrapped
    towards [0, 360) by a fixed number of conditional additions of 360.

    `atan2` is a parameter; its range [-PI, PI] is a hypothesis of the lemmas that
    need it. Floating point is modelled by `real`. */
module Phase {
  import Fft

  /** The EPSILON macro of the C programs (1e-8). */
  const EPSILON: real := 0.00000001
  /** The RAD2DEG macro (180 / PI). */
  const RAD2DEG: real := 57.295779513082320876798154814105

  /** The offset and the number of wraps of treceriTestPhaseComputing.c and
      calculatePhaseFromFFT_TEST_ME.c. */
  const OFFSET_PLUS: real := 137.1126
  const WRAPS_PLUS: nat := 1
  /** The offset and the number of wraps of calculatePhaseFromFFT.c. */
  const OFFSET_MINUS: real := -222.884444
  const WRAPS_MINUS: nat := 2

  /** 2^64: the bin guard compares an `int` k with an `unsigned long`, so k is
      converted to unsigned long (reduced modulo 2^64, with the 64-bit
      `unsigned long` of LP64 targets) first. */
  const ULONG_MODULUS: nat := 0x1_0000_0000_0000_0000

  function ToULong(k: int): (r: nat)
    ensures r < ULONG_MODULUS
    ensures 0 <= k < ULONG_MODULUS ==> r == k
    ensures -(ULONG_MODULUS as int) <= k < 0 ==> r == k + ULONG_MODULUS
  {
    k % ULONG_MODULUS
  }

  function Abs(x: real): real
  {
    if x < 0.0 then -x else x
  }

  /** The wrap statements: each of `wraps` conditional steps adds one whole turn
      of 360 degrees to an angle that is still negative. */
  function Wrap(a: real, wraps: nat): (r: real)
    ensures a <= r <= a + 360.0 * (wraps as real)
    ensures a >= 0.0 ==> r == a
    decreases wraps
  {
    if wraps == 0 then a
    else Wrap(if a < 0.0 then a + 360.0 else a, wraps - 1)
  }

  /** myfftPhase with offset `offset` and `wraps` wrap statements. data holds
      2 * nn values; nn is an `unsigned long` and k an `int`. */
  function FftPhase(data: seq<real>, nn: nat, k: int, offset: real, wraps: nat,
                    atan2: (real, real) -> real): (r: real)
    requires |data| == 2 * nn && nn < ULONG_MODULUS && -0x8000_0000 <= k < 0x8000_0000
    ensures ToULong(k) >= nn / 2 ==> r == 0.0
    ensures k < 0 ==> r == 0.0
    ensures 0 <= k < nn / 2 && Abs(data[2 * k]) < EPSILON && Abs(data[2 * k + 1]) < EPSILON ==> r == 0.0
  {
    if ToULong(k) >= nn / 2 then 0.0  // out of range
    else
      var realPart := data[2 * k];
      var imagPart := data[2 * k + 1];
      if Abs(realPart) < EPSILON && Abs(imagPart) < EPSILON then 0.0  // phase undefined
      else
        var angleDeg := atan2(imagPart, realPart) * RAD2DEG;
        Wrap(angleDeg + offset, wraps)
  }

  /** myfftPhase of treceriTestPhaseComputing.c and calculatePhaseFromFFT_TEST_ME.c. */
  function FftPhasePlus(data: seq<real>, nn: nat, k: int, atan2: (real, real) -> real): real
    requires |data| == 2 * nn && nn < ULONG_MODULUS && -0x8000_0000 <= k < 0x8000_0000
  {
    FftPhase(data, nn, k, OFFSET_PLUS, WRAPS_PLUS, atan2)
  }

  /** myfftPhase of calculatePhaseFromFFT.c. */
  function FftPhaseMinus(data: seq<real>, nn: nat, k: int, atan2: (real, real) -> real): real
    requires |data| == 2 * nn && nn < ULONG_MODULUS && -0x8000_0000 <= k < 0x8000_0000
  {
    FftPhase(data, nn, k, OFFSET_MINUS, WRAPS_MINUS, atan2)
  }

  // ---------------------------------------------------------------------------
  // Properties
  // ---------------------------------------------------------------------------

  /** The wraps land in [0, 360) exactly when the angle is below 360 and at least
      -360 per wrap. */
  lemma {:induction false} WrapRange(a: real, wraps: nat)
    ensures 0.0 <= Wrap(a, wraps) < 360.0 <==> -360.0 * (wraps as real) <= a < 360.0
    decreases wraps
  {
    if wraps > 0 {
      var b := if a < 0.0 then a + 360.0 else a;
      WrapRange(b, wraps - 1);
    }
  }

  /** How many of the `wraps` statements add 360. */
  function WrapTurns(a: real, wraps: nat): (c: nat)
    ensures c <= wraps
    decreases wraps
  {
    if wraps == 0 then 0
    else if a < 0.0 then 1 + WrapTurns(a + 360.0, wraps - 1)
    else WrapTurns(a, wraps - 1)
  }

  /** The wraps only add whole turns, and a non-negative angle is left as it is. */
  lemma {:induction false} WrapAddsTurns(a: real, wraps: nat)
    ensures Wrap(a, wraps) == a + 360.0 * (WrapTurns(a, wraps) as real)
    ensures a >= 0.0 ==> Wrap(a, wraps) == a
    decreases wraps
  {
    if wraps > 0 {
      var b := if a < 0.0 then a + 360.0 else a;
      WrapAddsTurns(b, wraps - 1);
    }
  }

  /** atan2 in [-PI, PI] gives a degree angle in [-180, 180] (up to the rounding
      of the two decimal constants, below 1e-10). */
  lemma DegreeRange(atan2: (real, real) -> real, y: real, x: real)
    requires forall y', x' :: -Fft.PI <= atan2(y', x') && atan2(y', x') <= Fft.PI
    ensures -180.0 - 1.0 / 10000000000.0 <= atan2(y, x) * RAD2DEG <= 180.0 + 1.0 / 10000000000.0
  {
    var angle := atan2(y, x);
    assert -Fft.PI <= angle <= Fft.PI;
  }

  /** For an in-range bin with a non-negligible value, the result is the degree
      angle plus the offset, wrapped; it reads data only at 2k and 2k + 1. */
  lemma FftPhaseReadsOneBin(data: seq<real>, other: seq<real>, nn: nat, k: int, offset: real, wraps: nat,
                            atan2: (real, real) -> real)
    requires |data| == |other| == 2 * nn && nn < ULONG_MODULUS && -0x8000_0000 <= k < 0x8000_0000
    requires 0 <= k < nn / 2 ==> data[2 * k] == other[2 * k] && data[2 * k + 1] == other[2 * k + 1]
    ensures 0 <= k < nn / 2 ==> 2 * k + 1 < 2 * nn
    ensures FftPhase(data, nn, k, offset, wraps, atan2) == FftPhase(other, nn, k, offset, wraps, atan2)
  {
  }

  /** Every value that is not the 0.0 of a guard is the wrapped, offset degree
      angle of bin k. */
  lemma FftPhaseValue(data: seq<real>, nn: nat, k: int, offset: real, wraps: nat, atan2: (real, real) -> real)
    requires |data| == 2 * nn && nn < ULONG_MODULUS && -0x8000_0000 <= k < 0x8000_0000
    requires 0 <= k < nn / 2 && !(Abs(data[2 * k]) < EPSILON && Abs(data[2 * k + 1]) < EPSILON)
    ensures var a := atan2(data[2 * k + 1], data[2 * k]) * RAD2DEG + offset;
      FftPhase(data, nn, k, offset, wraps, atan2) == a + 360.0 * (WrapTurns(a, wraps) as real)
  {
    var a := atan2(data[2 * k + 1], data[2 * k]) * RAD2DEG + offset;
    assert FftPhase(data, nn, k, offset, wraps, atan2) == Wrap(a, wraps);
    WrapAddsTurns(a, wraps);
  }

  /** With offset 137.1126 one wrap suffices: the phase is in [0, 360). */
  lemma FftPhasePlusRange(data: seq<real>, nn: nat, k: int, atan2: (real, real) -> real)
    requires |data| == 2 * nn && nn < ULONG_MODULUS && -0x8000_0000 <= k < 0x8000_0000
    requires forall y, x :: -Fft.PI <= atan2(y, x) && atan2(y, x) <= Fft.PI
    ensures 0.0 <= FftPhasePlus(data, nn, k, atan2) < 360.0
  {
    if 0 <= k < nn / 2 {
      var a := atan2(data[2 * k + 1], data[2 * k]);
      DegreeRange(atan2, data[2 * k + 1], data[2 * k]);
      WrapRange(a * RAD2DEG + OFFSET_PLUS, WRAPS_PLUS);
    }
  }

  /** With offset -222.884444 two wraps suffice: the phase is in [0, 360). */
  lemma FftPhaseMinusRange(data: seq<real>, nn: nat, k: int, atan2: (real, real) -> real)
    requires |data| == 2 * nn && nn < ULONG_MODULUS && -0x8000_0000 <= k < 0x8000_0000
    requires forall y, x :: -Fft.PI <= atan2(y, x) && atan2(y, x) <= Fft.PI
    ensures 0.0 <= FftPhaseMinus(data, nn, k, atan2) < 360.0
  {
    if 0 <= k < nn / 2 {
      var a := atan2(data[2 * k + 1], data[2 * k]);
      DegreeRange(atan2, data[2 * k + 1], data[2 * k]);
      WrapRange(a * RAD2DEG + OFFSET_MINUS, WRAPS_MINUS);
    }
  }

  /** With offset -222.884444 a single wrap is not enough: the bin (-1, -0.001),
      just below the negative real axis, has an angle near -PI and ends near -42.83. */
  lemma OneWrapTooFewForMinus()
    ensures FftPhase([-1.0, -0.001, 0.0, 0.0], 2, 0, OFFSET_MINUS, 1, (y, x) => -Fft.PI + 0.001) < 0.0
  {
  }
}
