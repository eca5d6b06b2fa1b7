/** The in-place radix-2 transform `real_fft` over an interleaved buffer
    Re(0), Im(0), Re(1), Im(1), ... of 2*nn reals: a bit-reversal reordering of the nn
    complex pairs followed by log2(nn) Danielson-Lanczos butterfly passes.

    Indices follow the source: `i`, `j` and `m` are odd, 1-based positions of an
    imaginary slot, so a pair occupies slots i-1 (real) and i (imaginary); `mmax`
    and `istep` are distances in slots. Floating point is modelled by `real`, and
    `sin` is a parameter of the transform. */
module Fft {
  import opened Bits

  /** The C macro PI; the constant -6.283185307179586476925286766559 that one copy of
      the transform uses instead of -2.0 * PI is the same number. */
  const PI: real := 3.1415926535897932384626433832795

  /** The complex pair p of an interleaved buffer. */
  function Pair(s: seq<real>, p: nat): (real, real)
    requires 2 * p + 1 < |s|
  {
    (s[2 * p], s[2 * p + 1])
  }

  // ---------------------------------------------------------------------------
  // Bit-reversal reordering
  // ---------------------------------------------------------------------------

  /** The buffer whose pair p is the pair Rev(width, p) of s. */
  function BitReversed(s: seq<real>, width: nat): (r: seq<real>)
    requires |s| == 2 * Pow2(width)
    ensures |r| == |s|
  {
    seq(|s|, x requires 0 <= x < |s| => s[2 * Rev(width, x / 2) + x % 2])
  }

  /** Reordering moves whole pairs: pair p of the result is pair Rev(width, p) of s. */
  lemma BitReversedMovesPairs(s: seq<real>, width: nat, p: nat)
    requires |s| == 2 * Pow2(width) && p < Pow2(width)
    ensures Pair(BitReversed(s, width), p) == Pair(s, Rev(width, p))
  {
    assert (2 * p) / 2 == p && (2 * p + 1) / 2 == p;
  }

  /** Reordering twice restores the buffer: the reordering is a permutation of whole
      pairs, its own inverse. */
  lemma BitReversedInvolutive(s: seq<real>, width: nat)
    requires |s| == 2 * Pow2(width)
    ensures BitReversed(BitReversed(s, width), width) == s
  {
    var r := BitReversed(s, width);
    var rr := BitReversed(r, width);
    forall x | 0 <= x < |s|
      ensures rr[x] == s[x]
    {
      var p := x / 2;
      var y := 2 * Rev(width, p) + x % 2;
      assert rr[x] == r[y];
      assert y / 2 == Rev(width, p) && y % 2 == x % 2;
      assert r[y] == s[2 * Rev(width, Rev(width, p)) + x % 2];
      RevInvolutive(width, p);
    }
  }

  /** A real-only input (all imaginary slots zero) stays real-only after reordering. */
  lemma BitReversedKeepsRealInput(s: seq<real>, width: nat)
    requires |s| == 2 * Pow2(width)
    requires forall p :: 0 <= p < Pow2(width) ==> s[2 * p + 1] == 0.0
    ensures forall p :: 0 <= p < Pow2(width) ==> BitReversed(s, width)[2 * p + 1] == 0.0
  {
    forall p | 0 <= p < Pow2(width)
      ensures BitReversed(s, width)[2 * p + 1] == 0.0
    {
      BitReversedMovesPairs(s, width, p);
    }
  }

  /** Where pair p of s sits once the swap loop has handled the pairs below q:
      a pair is moved when it or its partner has been reached. */
  ghost function SourceOfPair(width: nat, q: nat, p: nat): nat
  {
    if p < q || Rev(width, p) < q then Rev(width, p) else p
  }

  /** The bit-reversal section of `real_fft`: the swap loop driven by the odd index j
      and the halving mask m. Every swap exchanges two whole pairs. */
  method BitReverseReorder(data: array<real>, nn: nat)
    requires IsPowerOfTwo(nn) && data.Length == 2 * nn
    modifies data
    ensures data[..] == BitReversed(old(data[..]), Log2(nn))
  {
    ghost var width: nat := Log2(nn);
    ghost var s0 := data[..];
    RevOfZero(width);
    var n := 2 * nn;
    var j := 1;
    var i := 1;
    ghost var q: nat := 0;
    while i < n
      invariant i == 2 * q + 1 && q <= nn
      invariant q < nn ==> j == 2 * Rev(width, q) + 1
      invariant Placed(s0, data[..], width, q)
    {
      j := ReorderStep(data, n, i, j, s0, width, q);
      i := i + 2;
      q := q + 1;
    }
    PlacedAll(s0, data[..], width);
  }

  /** One turn of the swap loop at pair q (slot i = 2q + 1): swap with the
      partner pair j when j > i, then advance j to the partner of pair q + 1. */
  method ReorderStep(data: array<real>, n: nat, i: nat, j: nat, ghost s0: seq<real>, ghost width: nat, ghost q: nat)
    returns (next: nat)
    requires n == 2 * Pow2(width) && data.Length == n && |s0| == n
    requires i == 2 * q + 1 && q < Pow2(width) && j == 2 * Rev(width, q) + 1
    requires Placed(s0, data[..], width, q)
    modifies data
    ensures Placed(s0, data[..], width, q + 1)
    ensures q + 1 < Pow2(width) ==> next == 2 * Rev(width, q + 1) + 1
  {
    ghost var before := data[..];
    DivModUnique(i, 2, q, 1);
    DivModUnique(j, 2, Rev(width, q), 1);
    DivModUnique(n, 2, Pow2(width), 0);
    if j > i {
      // j is odd and at most 2*nn - 1, so all four slots are in bounds
      SwapPairs(data, j, i);
    }
    SwapStep(s0, before, data[..], width, q);
    next := AdvanceReversedIndex(j, n, width, q);
  }

  /** The mask loop that follows each swap test: j steps to the imaginary slot of
      the next pair in bit-reversed order. With j the slot of pair Rev(q), the result
      is the slot of pair Rev(q + 1). */
  method AdvanceReversedIndex(j: nat, n: nat, ghost width: nat, ghost q: nat) returns (next: nat)
    requires n == 2 * Pow2(width) && q < Pow2(width) && j == 2 * Rev(width, q) + 1
    ensures q + 1 < Pow2(width) ==> next == 2 * Rev(width, q + 1) + 1
  {
    next := j;
    var m := n / 2;
    ghost var c: nat := 0;
    ghost var qs: nat := q;
    while m >= 2 && next > m
      invariant c <= width && m == Pow2(width - c)
      invariant q + 1 == Shl(qs + 1, c)
      invariant next == 2 * Rev(width - c, qs) + 1
    {
      MaskStep(width, c, q, qs, next);
      next := next - m;
      m := m / 2;
      c := c + 1;
      qs := qs / 2;
    }
    MaskExit(width, c, q, qs, next, m);
    next := next + m;
  }

  /** The two SWAP macros of the reordering: exchange the pair whose imaginary slot
      is a with the pair whose imaginary slot is b. */
  method SwapPairs(data: array<real>, a: nat, b: nat)
    requires data.Length % 2 == 0 && a % 2 == 1 && b % 2 == 1 && a < data.Length && b < data.Length
    modifies data
    ensures forall p :: 0 <= p < data.Length / 2 ==>
      Pair(data[..], p) == Pair(old(data[..]), if p == a / 2 then b / 2 else if p == b / 2 then a / 2 else p)
  {
    data[a - 1], data[b - 1] := data[b - 1], data[a - 1];
    data[a], data[b] := data[b], data[a];
  }

  /** The placement invariant of the swap loop once the pairs below q are handled. */
  ghost predicate Placed(s0: seq<real>, cur: seq<real>, width: nat, q: nat)
    requires |s0| == |cur| == 2 * Pow2(width)
  {
    forall p :: 0 <= p < Pow2(width) ==> Pair(cur, p) == Pair(s0, SourceOfPair(width, q, p))
  }

  /** One step of the swap loop keeps the placement invariant. */
  lemma SwapStep(s0: seq<real>, before: seq<real>, after: seq<real>, width: nat, q: nat)
    requires |s0| == |before| == |after| == 2 * Pow2(width) && q < Pow2(width)
    requires Rev(width, q) > q ==> forall p :: 0 <= p < Pow2(width) ==>
      Pair(after, p) == Pair(before, if p == Rev(width, q) then q else if p == q then Rev(width, q) else p)
    requires Rev(width, q) <= q ==> after == before
    requires Placed(s0, before, width, q)
    ensures Placed(s0, after, width, q + 1)
  {
    var rq := Rev(width, q);
    RevInvolutive(width, q);
    forall p | 0 <= p < Pow2(width)
      ensures Pair(after, p) == Pair(s0, SourceOfPair(width, q + 1, p))
    {
      RevInvolutive(width, p);
      if p == q {
        assert Pair(before, rq) == Pair(s0, SourceOfPair(width, q, rq));
      } else if p == rq {
        assert Pair(before, q) == Pair(s0, SourceOfPair(width, q, q));
      } else {
        assert Pair(before, p) == Pair(s0, SourceOfPair(width, q, p));
      }
    }
  }

  /** When every pair has been reached, the buffer is the bit-reversed input. */
  lemma PlacedAll(s0: seq<real>, cur: seq<real>, width: nat)
    requires |s0| == |cur| == 2 * Pow2(width)
    requires Placed(s0, cur, width, Pow2(width))
    ensures cur == BitReversed(s0, width)
  {
    forall x | 0 <= x < |cur|
      ensures cur[x] == BitReversed(s0, width)[x]
    {
      var p := x / 2;
      BitReversedMovesPairs(s0, width, p);
      assert Pair(cur, p) == Pair(s0, SourceOfPair(width, Pow2(width), p));
    }
  }

  /** One turn of the mask loop: bit c of q is one, so the leading bit of the
      reversed remainder is set; subtracting m clears it. */
  lemma MaskStep(width: nat, c: nat, q: nat, qs: nat, j: int)
    requires c < width && q + 1 == Shl(qs + 1, c)
    requires j == 2 * Rev(width - c, qs) + 1 && j > Pow2(width - c)
    ensures qs % 2 == 1 && Pow2(width - c) / 2 == Pow2(width - c - 1)
    ensures q + 1 == Shl(qs / 2 + 1, c + 1)
    ensures j - Pow2(width - c) == 2 * Rev(width - c - 1, qs / 2) + 1
  {
    assert qs + 1 == 2 * (qs / 2 + 1);
  }

  /** Leaving the mask loop: either q was the last pair index or adding m yields
      the reversed successor. */
  lemma MaskExit(width: nat, c: nat, q: nat, qs: nat, j: int, m: nat)
    requires q < Pow2(width) && c <= width && m == Pow2(width - c)
    requires q + 1 == Shl(qs + 1, c)
    requires j == 2 * Rev(width - c, qs) + 1
    requires !(m >= 2 && j > m)
    ensures q + 1 < Pow2(width) ==> j + m == 2 * Rev(width, q + 1) + 1
  {
    if c < width {
      assert qs % 2 == 0;
      RevIncrement(width, c, q, qs);
    } else if q + 1 < Pow2(width) {
      ShlIsProduct(qs + 1, width);
      MulBounds(qs + 1, Pow2(width));
      assert false;
    }
  }

  // ---------------------------------------------------------------------------
  // Danielson-Lanczos passes
  // ---------------------------------------------------------------------------

  /** A pass with half-block mmax (in slots) over n slots: mmax is even and at
      least 2, the pass runs because n > mmax, and the blocks of 2 * mmax slots
      tile the buffer. */
  predicate PassShape(n: nat, mmax: nat)
  {
    2 <= mmax < n && mmax % 2 == 0 && n % (2 * mmax) == 0
  }

  /** Slot i (odd, 1-based) is the near element of a butterfly of the pass: its
      offset inside its block of 2 * mmax slots lies in the first half. */
  predicate IsNear(i: nat, mmax: nat)
    requires mmax >= 1
  {
    i % 2 == 1 && (i - 1) % (2 * mmax) < mmax
  }

  /** A near slot that the `i <= n` loop test admits has its far partner
      i + mmax inside the buffer, so all four slots i-1, i, j-1, j are in bounds. */
  lemma NearBound(i: nat, n: nat, mmax: nat)
    requires PassShape(n, mmax) && 1 <= i <= n && IsNear(i, mmax)
    ensures i + mmax < n
  {
    NearOffsetBelowHalf(i, mmax);
    BlockBelow(i - 1, n, 2 * mmax);
  }

  /** The offset of a near slot is even, so it is at most mmax - 2. */
  lemma NearOffsetBelowHalf(i: nat, mmax: nat)
    requires mmax >= 2 && mmax % 2 == 0 && i >= 1 && IsNear(i, mmax)
    ensures (i - 1) % (2 * mmax) + 2 <= mmax
  {
    DivModUnique(i - 1, 2, i / 2, 0);
    ModOfEven(i - 1, mmax);
  }

  /** The block that holds x ends at or before n when n is a whole number of blocks. */
  lemma BlockBelow(x: nat, n: nat, d: nat)
    requires d >= 1 && x < n && n % d == 0
    ensures x - x % d + d <= n
  {
    var k, blocks := x / d, n / d;
    assert x - x % d == k * d;
    assert n == blocks * d;
    if blocks <= k {
      MulMonotone(blocks, k, d);
      assert false;
    }
    MulMonotone(k + 1, blocks, d);
    assert (k + 1) * d == k * d + d;
  }

  /** The next block's slot at the same offset is again a near slot. */
  lemma NearStep(i: nat, mmax: nat)
    requires mmax >= 1 && IsNear(i, mmax)
    ensures IsNear(i + 2 * mmax, mmax)
  {
    ModAddModulus(i - 1, 2 * mmax);
    assert i + 2 * mmax - 1 == i - 1 + 2 * mmax;
    ModAddModulus(i, 2);
    ModAddModulus(i + 2, 2);
    assert (i + 2 * mmax) % 2 == i % 2 by {
      DivModUnique(i + 2 * mmax, 2, i / 2 + mmax, i % 2);
    }
  }

  /** One unfolding of the block sweep. */
  lemma BlockSweepStep(s: seq<real>, n: nat, mmax: nat, i: nat, wr: real, wi: real)
    requires |s| == n && PassShape(n, mmax) && 1 <= i <= n && IsNear(i, mmax)
    ensures i + mmax < n && IsNear(i + 2 * mmax, mmax)
    ensures BlockSweep(s, n, mmax, i, wr, wi) == BlockSweep(Butterfly(s, i, i + mmax, wr, wi), n, mmax, i + 2 * mmax, wr, wi)
  {
    NearBound(i, n, mmax);
    NearStep(i, mmax);
  }

  /** One butterfly, written in the order of the source's four assignments:
      the far pair j is rotated by the twiddle (wr, wi) and then subtracted from
      and added to the near pair i. */
  function Butterfly(s: seq<real>, i: nat, j: nat, wr: real, wi: real): (r: seq<real>)
    requires 1 <= i && i + 1 < j < |s|
    ensures |r| == |s|
    ensures r[i - 1] + r[j - 1] == 2.0 * s[i - 1] && r[i] + r[j] == 2.0 * s[i]
    ensures r[i - 1] - r[j - 1] == 2.0 * (wr * s[j - 1] - wi * s[j])
    ensures r[i] - r[j] == 2.0 * (wr * s[j] + wi * s[j - 1])
    ensures forall y :: 0 <= y < |s| && y != i - 1 && y != i && y != j - 1 && y != j ==> r[y] == s[y]
  {
    var tempr := wr * s[j - 1] - wi * s[j];
    var tempi := wr * s[j] + wi * s[j - 1];
    s[j - 1 := s[i - 1] - tempr][j := s[i] - tempi][i - 1 := s[i - 1] + tempr][i := s[i] + tempi]
  }

  /** A butterfly is its four updates, with the rotated far pair (tempr, tempi)
      computed beforehand; stated for a buffer read out of an array. */
  lemma ButterflyUpdates(s: seq<real>, i: nat, j: nat, wr: real, wi: real, tempr: real, tempi: real)
    requires 1 <= i && i + 1 < j < |s|
    requires tempr == wr * s[j - 1] - wi * s[j] && tempi == wr * s[j] + wi * s[j - 1]
    ensures Butterfly(s, i, j, wr, wi)
         == s[j - 1 := s[i - 1] - tempr][j := s[i] - tempi][i - 1 := s[i - 1] + tempr][i := s[i] + tempi]
  {
  }

  /** The `i` loop of one twiddle offset: butterflies at i, i + 2*mmax, ... while
      i <= n, all with the same twiddle; the buffer once they are done. */
  function BlockSweep(s: seq<real>, n: nat, mmax: nat, i: nat, wr: real, wi: real): (r: seq<real>)
    requires |s| == n && PassShape(n, mmax) && i >= 1 && IsNear(i, mmax)
    ensures |r| == n
    decreases n + 1 - i
  {
    if i > n then s
    else
      NearBound(i, n, mmax);
      NearStep(i, mmax);
      BlockSweep(Butterfly(s, i, i + mmax, wr, wi), n, mmax, i + 2 * mmax, wr, wi)
  }

  /** The twiddle recurrence between offsets: (wr, wi) is multiplied by
      (1 + wpr, wpi), which approximates a rotation by theta. */
  function NextTwiddle(w: (real, real), wpr: real, wpi: real): (r: (real, real))
    ensures r.0 == w.0 * (1.0 + wpr) - w.1 * wpi
    ensures r.1 == w.0 * wpi + w.1 * (1.0 + wpr)
  {
    (w.0 * wpr - w.1 * wpi + w.0, w.1 * wpr + w.0 * wpi + w.1)
  }

  /** The squared modulus of a complex number (re, im). */
  function Norm(z: (real, real)): real
  {
    z.0 * z.0 + z.1 * z.1
  }

  /** The recurrence multiplies the modulus of the twiddle by that of the step
      (1 + wpr, wpi); a step of modulus one keeps the twiddle on the unit circle. */
  lemma NextTwiddleModulus(w: (real, real), wpr: real, wpi: real)
    ensures Norm(NextTwiddle(w, wpr, wpi)) == Norm(w) * Norm((1.0 + wpr, wpi))
    ensures Norm((1.0 + wpr, wpi)) == 1.0 ==> Norm(NextTwiddle(w, wpr, wpi)) == Norm(w)
  {
    var a, b, c, d := w.0, w.1, 1.0 + wpr, wpi;
    assert NextTwiddle(w, wpr, wpi) == (a * c - b * d, a * d + b * c);
    assert (a * c - b * d) * (a * c - b * d) + (a * d + b * c) * (a * d + b * c)
        == (a * a + b * b) * (c * c + d * d);
  }

  /** The `m` loop of a pass from offset m on, with the twiddle w of offset m. */
  function OffsetSweep(s: seq<real>, n: nat, mmax: nat, m: nat, w: (real, real), wpr: real, wpi: real): (r: seq<real>)
    requires |s| == n && PassShape(n, mmax) && m % 2 == 1
    ensures |r| == n
    decreases mmax - m
  {
    if m >= mmax then s
    else
      DivModUnique(m - 1, 2 * mmax, 0, m - 1);
      ModAddModulus(m, 2);
      OffsetSweep(BlockSweep(s, n, mmax, m, w.0, w.1), n, mmax, m + 2, NextTwiddle(w, wpr, wpi), wpr, wpi)
  }

  /** One unfolding of the offset sweep. */
  lemma OffsetSweepStep(s: seq<real>, n: nat, mmax: nat, m: nat, w: (real, real), wpr: real, wpi: real)
    requires |s| == n && PassShape(n, mmax) && m % 2 == 1 && m < mmax
    ensures IsNear(m, mmax) && (m + 2) % 2 == 1
    ensures OffsetSweep(s, n, mmax, m, w, wpr, wpi)
         == OffsetSweep(BlockSweep(s, n, mmax, m, w.0, w.1), n, mmax, m + 2, NextTwiddle(w, wpr, wpi), wpr, wpi)
  {
    DivModUnique(m - 1, 2 * mmax, 0, m - 1);
    ModAddModulus(m, 2);
  }

  /** The two constants of the twiddle recurrence of a pass, from theta = -2*PI/mmax:
      wpr = -2 sin^2(theta / 2), which is never positive, and wpi = sin(theta). */
  function TwiddleStep(mmax: nat, sin: real -> real): (r: (real, real))
    requires mmax >= 1
    ensures r.0 <= 0.0
  {
    var theta := -2.0 * PI / (mmax as real);
    var wtemp := sin(0.5 * theta);
    (-2.0 * wtemp * wtemp, sin(theta))
  }

  /** One pass of the pass loop, which runs while n exceeds mmax. */
  function DLPass(s: seq<real>, n: nat, mmax: nat, sin: real -> real): (r: seq<real>)
    requires |s| == n && PassShape(n, mmax)
    ensures |r| == n
  {
    var (wpr, wpi) := TwiddleStep(mmax, sin);
    OffsetSweep(s, n, mmax, 1, (1.0, 0.0), wpr, wpi)
  }

  /** The values mmax takes in the pass loop, starting from mmax and doubling
      while n > mmax. */
  function PassSizes(n: nat, mmax: nat): (r: seq<nat>)
    requires IsPowerOfTwo(n) && IsPowerOfTwo(mmax) && mmax >= 2
    ensures forall k :: 0 <= k < |r| ==> PassShape(n, r[k])
    decreases n - mmax
  {
    if n > mmax then
      PassSizeStep(n, mmax);
      [mmax] + PassSizes(n, 2 * mmax)
    else []
  }

  /** The pass schedule: from mmax = 2^(a+1) the loop runs with mmax = 2^(a+1), 2^(a+2),
      ..., 2^width and stops once mmax reaches n = 2^(width+1). */
  lemma {:induction false} PassSchedule(width: nat, a: nat, n: nat, mmax: nat)
    requires a <= width && n == Pow2(width + 1) && mmax == Pow2(a + 1)
    ensures IsPowerOfTwo(n) && IsPowerOfTwo(mmax)
    ensures PassSizes(n, mmax) == seq(width - a, k requires 0 <= k < width - a => Pow2(a + 1 + k))
    decreases width - a
  {
    Log2OfPow2(width + 1);
    Log2OfPow2(a + 1);
    if a < width {
      Pow2Monotone(a + 2, width + 1);
      assert 2 * mmax == Pow2(a + 2);
      PassSchedule(width, a + 1, n, 2 * mmax);
      assert PassSizes(n, mmax) == [mmax] + PassSizes(n, 2 * mmax);
    }
  }

  /** real_fft makes log2(nn) passes, with mmax = 2, 4, ..., nn. */
  lemma PassCount(nn: nat)
    requires IsPowerOfTwo(nn)
    ensures IsPowerOfTwo(2 * nn) && IsPowerOfTwo(2)
    ensures |PassSizes(2 * nn, 2)| == Log2(nn)
    ensures forall k :: 0 <= k < Log2(nn) ==> PassSizes(2 * nn, 2)[k] == Pow2(k + 1)
  {
    DoublePowerOfTwo(nn);
    PassesFromTwo(nn, Log2(nn));
  }

  /** PassSchedule from the first pass, mmax = 2. */
  lemma PassesFromTwo(nn: nat, width: nat)
    requires IsPowerOfTwo(nn) && width == Log2(nn)
    ensures IsPowerOfTwo(2 * nn) && IsPowerOfTwo(2)
    ensures PassSizes(2 * nn, 2) == seq(width, k requires 0 <= k < width => Pow2(k + 1))
  {
    assert Pow2(width + 1) == 2 * nn && Pow2(0 + 1) == 2;
    PassSchedule(width, 0, 2 * nn, 2);
    assert seq(width - 0, k requires 0 <= k < width - 0 => Pow2(0 + 1 + k))
        == seq(width, k requires 0 <= k < width => Pow2(k + 1));
  }

  /** A power of two mmax >= 2 below the power of two n is a valid pass, and the
      next one is again a power of two. */
  lemma PassSizeStep(n: nat, mmax: nat)
    requires IsPowerOfTwo(n) && IsPowerOfTwo(mmax) && 2 <= mmax < n
    ensures PassShape(n, mmax) && IsPowerOfTwo(2 * mmax)
  {
    PowerOfTwoDivides(mmax, n);
    DoublePowerOfTwo(mmax);
    PowerOfTwoDivides(1, mmax);
  }

  /** The passes applied in order. */
  function ApplyPasses(s: seq<real>, n: nat, sizes: seq<nat>, sin: real -> real): (r: seq<real>)
    requires |s| == n && forall k :: 0 <= k < |sizes| ==> PassShape(n, sizes[k])
    ensures |r| == n
    decreases |sizes|
  {
    if sizes == [] then s
    else ApplyPasses(DLPass(s, n, sizes[0], sin), n, sizes[1..], sin)
  }

  /** What `real_fft` computes: the bit-reversal reordering followed by the passes
      mmax = 2, 4, ..., nn over n = 2 * nn slots. */
  function Transform(s: seq<real>, nn: nat, sin: real -> real): (r: seq<real>)
    requires IsPowerOfTwo(nn) && |s| == 2 * nn
    ensures |r| == |s|
  {
    DoublePowerOfTwo(nn);
    assert IsPowerOfTwo(2) by { assert Log2(2) == 1; }
    ApplyPasses(BitReversed(s, Log2(nn)), 2 * nn, PassSizes(2 * nn, 2), sin)
  }

  /** `real_fft`: reorders the nn pairs of data into bit-reversed order, then runs
      the log2(nn) Danielson-Lanczos passes in place. */
  method RealFft(data: array<real>, nn: nat, sin: real -> real)
    requires IsPowerOfTwo(nn) && data.Length == 2 * nn
    modifies data
    ensures data[..] == Transform(old(data[..]), nn, sin)
  {
    var n := 2 * nn;
    BitReverseReorder(data, nn);
    ghost var reordered := data[..];
    DoublePowerOfTwo(nn);
    assert IsPowerOfTwo(2) by { assert Log2(2) == 1; }
    var mmax := 2;
    while n > mmax
      invariant IsPowerOfTwo(mmax) && mmax >= 2
      invariant ApplyPasses(data[..], n, PassSizes(n, mmax), sin) == ApplyPasses(reordered, n, PassSizes(n, 2), sin)
    {
      PassSizeStep(n, mmax);
      RunPass(data, n, mmax, sin);
      mmax := 2 * mmax;
    }
  }

  /** The body of the pass loop: the twiddle constants of the pass
      and the loop over the offsets m = 1, 3, ..., mmax - 1. */
  method RunPass(data: array<real>, n: nat, mmax: nat, sin: real -> real)
    requires data.Length == n && PassShape(n, mmax)
    modifies data
    ensures data[..] == DLPass(old(data[..]), n, mmax, sin)
  {
    var step := TwiddleStep(mmax, sin);
    var wpr, wpi := step.0, step.1;
    var wr, wi := 1.0, 0.0;
    var m := 1;
    ghost var goal := DLPass(data[..], n, mmax, sin);
    while m < mmax
      invariant m % 2 == 1 && 1 <= m <= mmax + 1
      invariant OffsetSweep(data[..], n, mmax, m, (wr, wi), wpr, wpi) == goal
    {
      ghost var before := data[..];
      OffsetSweepStep(before, n, mmax, m, (wr, wi), wpr, wpi);
      RunBlocks(data, n, mmax, m, wr, wi);
      assert data[..] == BlockSweep(before, n, mmax, m, wr, wi);
      var next := NextTwiddle((wr, wi), wpr, wpi);
      wr, wi := next.0, next.1;
      m := m + 2;
    }
  }

  /** The `i` loop, which steps by istep while i is at most n: every butterfly of
      offset m. */
  method RunBlocks(data: array<real>, n: nat, mmax: nat, m: nat, wr: real, wi: real)
    requires data.Length == n && PassShape(n, mmax) && m >= 1 && IsNear(m, mmax)
    modifies data
    ensures data[..] == BlockSweep(old(data[..]), n, mmax, m, wr, wi)
  {
    ghost var goal := BlockSweep(data[..], n, mmax, m, wr, wi);
    var istep := 2 * mmax;
    var i := m;
    while i <= n
      invariant i >= 1 && IsNear(i, mmax)
      invariant BlockSweep(data[..], n, mmax, i, wr, wi) == goal
    {
      var j := i + mmax;
      ghost var before := data[..];
      BlockSweepStep(before, n, mmax, i, wr, wi);
      ButterflyInPlace(data, i, j, wr, wi);
      assert data[..] == Butterfly(before, i, i + mmax, wr, wi);
      i := i + istep;
    }
  }

  /** The four assignments of one butterfly, through the temporaries tempr and tempi. */
  method ButterflyInPlace(data: array<real>, i: nat, j: nat, wr: real, wi: real)
    requires 1 <= i && i + 1 < j < data.Length
    modifies data
    ensures data[..] == Butterfly(old(data[..]), i, j, wr, wi)
  {
    ghost var s := data[..];
    var tempr := wr * data[j - 1] - wi * data[j];
    var tempi := wr * data[j] + wi * data[j - 1];
    assert tempr == wr * s[j - 1] - wi * s[j] && tempi == wr * s[j] + wi * s[j - 1];
    data[j - 1] := data[i - 1] - tempr;
    data[j] := data[i] - tempi;
    data[i - 1] := data[i - 1] + tempr;
    data[i] := data[i] + tempi;
    assert data[..] == s[j - 1 := s[i - 1] - tempr][j := s[i] - tempi][i - 1 := s[i - 1] + tempr][i := s[i] + tempi];
    ButterflyUpdates(s, i, j, wr, wi, tempr, tempi);
  }
}
