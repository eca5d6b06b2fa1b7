/** The Python phase helpers: `myfftPhase` of animate_plot_files.py, which reads a
    bin of a complex transform array, and `myatan2` / `get_signal_phase` of
    gen_sig_hanning.py, a quadrant-by-quadrant arctangent and the calibrated phase
    built on it. `np.arctan2` and `math.atan` are parameters; floats are `real`. */
module PyPhase {
  import Phase

  /** A numpy complex value. */
  datatype Complex = Complex(re: real, im: real)

  /** An indexing error is the one failure the code can raise. */
  datatype Result<T> = Ok(value: T) | IndexError

  /** The float value of `np.pi`. */
  const NP_PI: real := 3.141592653589793
  /** The float np.pi is a little above NP_PI, and arctan2 may return it (or a
      value rounded near it): the range hypothesis allows this margin. */
  const ARCTAN2_MARGIN: real := 0.000000000001
  /** Degrees per radian, as both files derive it from the float pi. */
  const RAD2DEG: real := 180.0 / NP_PI
  /** The threshold below which animate_plot_files.py treats a bin as zero. */
  const EPSILON: real := 0.0000000001
  /** The eleven-decimal pi of gen_sig_hanning.py. */
  const PI: real := 3.14159265359
  /** The calibration offset both Python files subtract. */
  const OFFSET: real := -222.884444

  /** Python indexing `a[k]`: a negative k counts from the end; anything outside
      [-len, len) raises IndexError. */
  function Index<T>(a: seq<T>, k: int): (r: Result<T>)
    ensures -|a| <= k < 0 ==> r == Ok(a[|a| + k])
    ensures 0 <= k < |a| ==> r == Ok(a[k])
    ensures r.IndexError? <==> !(-|a| <= k < |a|)
  {
    if 0 <= k < |a| then Ok(a[k])
    else if -|a| <= k < 0 then Ok(a[|a| + k])
    else IndexError
  }

  /** `myfftPhase(fft_data, nn, k)` of animate_plot_files.py. `k >= nn / 2` is a
      float comparison. */
  function FftPhase(fftData: seq<Complex>, nn: int, k: int, arctan2: (real, real) -> real): (r: Result<real>)
    ensures (k as real) >= (nn as real) / 2.0 ==> r == Ok(0.0)
    ensures (k as real) < (nn as real) / 2.0 ==> (r.IndexError? <==> !(-|fftData| <= k < |fftData|))
    ensures (k as real) < (nn as real) / 2.0 && Index(fftData, k).Ok? &&
            Phase.Abs(Index(fftData, k).value.re) < EPSILON && Phase.Abs(Index(fftData, k).value.im) < EPSILON
            ==> r == Ok(0.0)
  {
    if (k as real) >= (nn as real) / 2.0 then Ok(0.0)  // out of range
    else
      match Index(fftData, k)
      case IndexError => IndexError
      case Ok(bin) =>
        var realPart := bin.re;
        var imagPart := bin.im;
        if Phase.Abs(realPart) < EPSILON && Phase.Abs(imagPart) < EPSILON then Ok(0.0)  // undefined
        else
          var angleDeg := arctan2(imagPart, realPart) * RAD2DEG;
          Ok(Phase.Wrap(angleDeg + OFFSET, 2))
  }

  /** `myatan2(y, x)`: five independent `if` statements that may each set v,
      followed by the shift of a negative v by 2*PI. */
  function MyAtan2(y: real, x: real, atan: real -> real): (r: real)
    ensures x == 0.0 && y == 0.0 ==> r == 0.0
    ensures x == 0.0 && y > 0.0 ==> r == PI / 2.0
    ensures x == 0.0 && y < 0.0 ==> r == -PI / 2.0 + 2.0 * PI
  {
    var v0 := 0.0;
    var v1 := if x > 0.0 then atan(y / x) else v0;
    var v2 := if y >= 0.0 && x < 0.0 then PI + atan(y / x) else v1;
    var v3 := if y < 0.0 && x < 0.0 then -PI + atan(y / x) else v2;
    var v4 := if y > 0.0 && x == 0.0 then PI / 2.0 else v3;
    var v5 := if y < 0.0 && x == 0.0 then -PI / 2.0 else v4;
    if v5 < 0.0 then v5 + 2.0 * PI else v5
  }

  /** Python's float `%` for a positive modulus: the remainder of floored division. */
  function FloorMod(a: real, m: real): (r: real)
    requires m > 0.0
    ensures 0.0 <= r < m
    ensures ((a - r) / m).Floor as real == (a - r) / m
  {
    var q := (a / m).Floor;
    var f := a / m - (q as real);
    assert 0.0 <= f < 1.0;
    assert a - (q as real) * m == f * m;
    assert (q as real) * m / m == q as real;
    a - (q as real) * m
  }

  /** `get_signal_phase(x, y)`. */
  function SignalPhase(x: real, y: real, atan: real -> real): (r: real)
    ensures 0.0 <= r < 360.0
  {
    var ang := MyAtan2(y, x, atan);
    var tmp := ang * RAD2DEG;
    var tmp1 := if tmp < 0.0 then tmp + 360.0 else tmp;
    FloorMod(tmp1 + OFFSET, 360.0)
  }

  // ---------------------------------------------------------------------------
  // Properties
  // ---------------------------------------------------------------------------

  /** The five quadrant conditions of myatan2 are pairwise exclusive, so the
      sequential ifs behave as one if-else chain. */
  function QuadrantAtan2(y: real, x: real, atan: real -> real): real
  {
    var v :=
      if x > 0.0 then atan(y / x)
      else if y >= 0.0 && x < 0.0 then PI + atan(y / x)
      else if y < 0.0 && x < 0.0 then -PI + atan(y / x)
      else if y > 0.0 && x == 0.0 then PI / 2.0
      else if y < 0.0 && x == 0.0 then -PI / 2.0
      else 0.0;
    if v < 0.0 then v + 2.0 * PI else v
  }

  lemma MyAtan2IsQuadrantChain(y: real, x: real, atan: real -> real)
    ensures MyAtan2(y, x, atan) == QuadrantAtan2(y, x, atan)
  {
  }

  /** With atan in (-PI/2, PI/2), myatan2 lies in [0, 2*PI). */
  lemma MyAtan2Range(y: real, x: real, atan: real -> real)
    requires forall t :: -PI / 2.0 < atan(t) < PI / 2.0
    ensures 0.0 <= MyAtan2(y, x, atan) < 2.0 * PI
  {
    if x != 0.0 {
      var a := atan(y / x);
      assert -PI / 2.0 < a < PI / 2.0;
    }
  }

  /** The `tmp < 0` branch of get_signal_phase never runs when atan has its range:
      the phase is the floored remainder of the degree angle minus 222.884444. */
  lemma SignalPhaseBranchDead(x: real, y: real, atan: real -> real)
    requires forall t :: -PI / 2.0 < atan(t) < PI / 2.0
    ensures MyAtan2(y, x, atan) * RAD2DEG >= 0.0
    ensures SignalPhase(x, y, atan) == FloorMod(MyAtan2(y, x, atan) * RAD2DEG + OFFSET, 360.0)
  {
    MyAtan2Range(y, x, atan);
  }

  /** With np.arctan2 in [-np.pi, np.pi], up to the margin, the Python myfftPhase is in [0, 360)
      whenever it does not raise. */
  lemma FftPhaseRange(fftData: seq<Complex>, nn: int, k: int, arctan2: (real, real) -> real)
    requires forall y, x :: -NP_PI - ARCTAN2_MARGIN <= arctan2(y, x) && arctan2(y, x) <= NP_PI + ARCTAN2_MARGIN
    ensures FftPhase(fftData, nn, k, arctan2).Ok? ==> 0.0 <= FftPhase(fftData, nn, k, arctan2).value < 360.0
  {
    if (k as real) < (nn as real) / 2.0 && -|fftData| <= k < |fftData| {
      var bin := Index(fftData, k).value;
      DegreeRange(arctan2, bin.im, bin.re);
      Phase.WrapRange(arctan2(bin.im, bin.re) * RAD2DEG + OFFSET, 2);
    }
  }

  lemma DegreeRange(arctan2: (real, real) -> real, y: real, x: real)
    requires forall y', x' :: -NP_PI - ARCTAN2_MARGIN <= arctan2(y', x') && arctan2(y', x') <= NP_PI + ARCTAN2_MARGIN
    ensures -180.0 - 1.0 / 10000000000.0 <= arctan2(y, x) * RAD2DEG <= 180.0 + 1.0 / 10000000000.0
  {
    var a := arctan2(y, x);
    assert -NP_PI - ARCTAN2_MARGIN <= a <= NP_PI + ARCTAN2_MARGIN;
  }

  /** Unlike the C version, a negative bin index does not return 0: it reads the
      bin |fftData| + k from the end, as Python indexing does. */
  lemma NegativeIndexReadsFromEnd(fftData: seq<Complex>, nn: int, k: int, arctan2: (real, real) -> real)
    requires -|fftData| <= k < 0 && nn >= 0 && ((|fftData| + k) as real) < (nn as real) / 2.0
    ensures FftPhase(fftData, nn, k, arctan2) == FftPhase(fftData, nn, |fftData| + k, arctan2)
  {
    assert (k as real) < 0.0 <= (nn as real) / 2.0;
    assert Index(fftData, k) == Index(fftData, |fftData| + k);
  }

  /** The result depends on fftData only through the one bin that k selects. */
  lemma FftPhaseReadsOneBin(fftData: seq<Complex>, other: seq<Complex>, nn: int, k: int, arctan2: (real, real) -> real)
    requires Index(fftData, k) == Index(other, k)
    ensures FftPhase(fftData, nn, k, arctan2) == FftPhase(other, nn, k, arctan2)
  {
    if (k as real) < (nn as real) / 2.0 && Index(fftData, k).Ok? {
      var bin := Index(fftData, k).value;
      assert Index(other, k) == Ok(bin);
    }
  }
}
