/** The structure of one Danielson-Lanczos pass of `real_fft`: every complex pair
    is the near or the far element of exactly one butterfly, and the pass leaves
    each slot with the value that this one butterfly, with the twiddle of its
    offset, gives it. */
module Butterflies {
  import opened Bits
  import opened Fft

  /** The offset of slot i (odd, 1-based) inside its block of 2 * mmax slots. */
  function Class(i: nat, mmax: nat): nat
    requires mmax >= 1
  {
    (i - 1) % (2 * mmax)
  }

  /** The near slot of the butterfly that holds the pair with odd slot x. */
  function Near(x: nat, mmax: nat): nat
    requires mmax >= 1
  {
    if IsNear(x, mmax) || x < mmax then x else x - mmax
  }

  /** The odd slot of the pair that slot y (0-based) belongs to. */
  function PairSlot(y: nat): nat
  {
    y - y % 2 + 1
  }

  /** The near slot of the butterfly that slot y belongs to. */
  function NearOf(y: nat, mmax: nat): nat
    requires mmax >= 1
  {
    Near(PairSlot(y), mmax)
  }

  /** The twiddle after k steps of the recurrence from w. */
  function TwiddleAfter(k: nat, w: (real, real), wpr: real, wpi: real): (real, real)
    decreases k
  {
    if k == 0 then w else TwiddleAfter(k - 1, NextTwiddle(w, wpr, wpi), wpr, wpi)
  }

  /** Slot y of a buffer of n slots, in the pass with half-block mmax: the
      butterfly of its pair lies inside the buffer and y is one of its four
      slots. */
  predicate InPass(n: nat, mmax: nat, y: nat)
  {
    PassShape(n, mmax) && y < n && PairSlot(y) % 2 == 1
    && NearOf(y, mmax) >= 1 && IsNear(NearOf(y, mmax), mmax) && NearOf(y, mmax) + mmax < n
    && (y + 1 == NearOf(y, mmax) || y == NearOf(y, mmax)
        || y + 1 == NearOf(y, mmax) + mmax || y == NearOf(y, mmax) + mmax)
  }

  /** m is one of the offsets 1, 3, ..., mmax - 1 that the `m` loop sweeps. */
  predicate SweptOffset(mmax: nat, m: nat)
  {
    mmax >= 1 && m % 2 == 1 && m < mmax && IsNear(m, mmax) && Class(m, mmax) == m - 1
  }

  // ---------------------------------------------------------------------------
  // Index arithmetic
  // ---------------------------------------------------------------------------

  /** Every odd slot is a near slot or the far slot mmax above a near slot --
      never both -- and Near finds that near slot. */
  lemma NearOrFar(x: nat, mmax: nat)
    requires mmax >= 2 && mmax % 2 == 0 && x % 2 == 1
    ensures IsNear(x, mmax) <==> !(x > mmax && IsNear(x - mmax, mmax))
    ensures Near(x, mmax) >= 1 && IsNear(Near(x, mmax), mmax)
    ensures Near(x, mmax) == x || Near(x, mmax) + mmax == x
  {
    var d := 2 * mmax;
    var r := Class(x, mmax);
    var q := (x - 1) / d;
    assert x - 1 == q * d + r;
    if r >= mmax {
      assert x - 1 >= mmax by { MulBounds(q, d); }
      DivModUnique(x - 1 - mmax, d, q, r - mmax);
      ParityShift(x, mmax);
    } else if x > mmax {
      assert q >= 1;
      DivModUnique(x - 1 - mmax, d, q - 1, r + mmax);
      ParityShift(x, mmax);
    } else {
      assert x < mmax || x == mmax;
    }
  }

  lemma ParityShift(x: nat, mmax: nat)
    requires mmax % 2 == 0 && x % 2 == 1 && x >= mmax
    ensures (x - mmax) % 2 == 1
  {
    DivModUnique(x - mmax, 2, x / 2 - mmax / 2, 1);
  }

  /** The far slot of a butterfly belongs to it. */
  lemma FarOfNear(i: nat, mmax: nat)
    requires mmax >= 2 && mmax % 2 == 0 && i >= 1 && IsNear(i, mmax)
    ensures Near(i, mmax) == i && (i + mmax) % 2 == 1 && Near(i + mmax, mmax) == i
  {
    ModAdd(i - 1, 2 * mmax, mmax);
    DivModUnique(i + mmax, 2, i / 2 + mmax / 2, 1);
  }

  /** The four slots of the butterfly at near slot i all belong to it. */
  lemma PairOfSlots(i: nat, mmax: nat)
    requires mmax >= 2 && mmax % 2 == 0 && i >= 1 && IsNear(i, mmax)
    ensures NearOf(i - 1, mmax) == i && NearOf(i, mmax) == i
    ensures NearOf(i + mmax - 1, mmax) == i && NearOf(i + mmax, mmax) == i
  {
    FarOfNear(i, mmax);
    DivModUnique(i - 1, 2, i / 2, 0);
    DivModUnique(i + mmax - 1, 2, (i + mmax) / 2, 0);
  }

  /** Two near slots of one offset less than a block apart are the same slot. */
  lemma SameClassClose(a: nat, b: nat, mmax: nat)
    requires mmax >= 1 && a >= 1 && b >= 1 && Class(a, mmax) == Class(b, mmax) && b <= a < b + 2 * mmax
    ensures a == b
  {
    var d := 2 * mmax;
    var qa, qb := (a - 1) / d, (b - 1) / d;
    assert a - b == (qa - qb) * d;
    MulBounds(qa - qb, d);
  }

  /** A near slot's offset is even, in the first half of the block, and at most
      the slot's distance from the start of the buffer. */
  lemma ClassOfNear(i: nat, mmax: nat)
    requires mmax >= 2 && mmax % 2 == 0 && i >= 1 && IsNear(i, mmax)
    ensures Class(i, mmax) % 2 == 0 && Class(i, mmax) < mmax && Class(i, mmax) <= i - 1
  {
    ModOfEven(i - 1, mmax);
    ModAtMost(i - 1, 2 * mmax);
    DivModUnique(Class(i, mmax), 2, ((i - 1) / 2) % mmax, 0);
  }

  /** Every slot of the buffer is in the pass. */
  lemma NearInside(y: nat, n: nat, mmax: nat)
    requires PassShape(n, mmax) && y < n
    ensures InPass(n, mmax, y)
  {
    var x := PairSlot(y);
    assert x % 2 == 1 by { DivModUnique(x, 2, y / 2, 1); }
    NearOrFar(x, mmax);
    ShapeEven(n, mmax);
    NearBound(Near(x, mmax), n, mmax);
  }

  /** A buffer of whole blocks has an even number of slots. */
  lemma ShapeEven(n: nat, mmax: nat)
    requires PassShape(n, mmax)
    ensures n % 2 == 0
  {
    var q := n / (2 * mmax);
    assert n == q * (2 * mmax);
    assert n == 2 * (q * mmax);
    DivModUnique(n, 2, q * mmax, 0);
  }

  /** Each slot of the buffer lies in exactly one butterfly of the pass: slot y
      is one of the four slots of the butterfly at near slot i exactly when i is
      NearOf(y). */
  lemma OneButterflyPerSlot(n: nat, mmax: nat, y: nat, i: nat)
    requires PassShape(n, mmax) && y < n && i >= 1 && IsNear(i, mmax)
    ensures (y + 1 == i || y == i || y + 1 == i + mmax || y == i + mmax) <==> i == NearOf(y, mmax)
  {
    NearInside(y, n, mmax);
    PairOfSlots(i, mmax);
  }

  /** The offsets of the `m` loop. */
  lemma OffsetIsSwept(mmax: nat, m: nat)
    requires mmax >= 2 && m % 2 == 1 && m < mmax
    ensures SweptOffset(mmax, m)
  {
    DivModUnique(m - 1, 2 * mmax, 0, m - 1);
  }

  // ---------------------------------------------------------------------------
  // What a sweep does to one slot
  // ---------------------------------------------------------------------------

  /** A butterfly reads only its four slots, and writes only them. */
  lemma ButterflyLocal(s: seq<real>, t: seq<real>, i: nat, j: nat, wr: real, wi: real, y: nat)
    requires |s| == |t| && 1 <= i && i + 1 < j < |s|
    requires s[i - 1] == t[i - 1] && s[i] == t[i] && s[j - 1] == t[j - 1] && s[j] == t[j]
    requires y == i - 1 || y == i || y == j - 1 || y == j
    ensures Butterfly(s, i, j, wr, wi)[y] == Butterfly(t, i, j, wr, wi)[y]
  {
  }

  /** The sweep of offset Class(i) from block i on: slot y changes exactly when
      its butterfly is one of the sweep's, and then as that butterfly sets it. */
  lemma {:induction false} BlockSweepAt(s: seq<real>, n: nat, mmax: nat, i: nat, wr: real, wi: real, y: nat)
    requires |s| == n && InPass(n, mmax, y) && i >= 1 && IsNear(i, mmax)
    ensures BlockSweep(s, n, mmax, i, wr, wi)[y]
         == if NearOf(y, mmax) >= i && Class(NearOf(y, mmax), mmax) == Class(i, mmax)
            then Butterfly(s, NearOf(y, mmax), NearOf(y, mmax) + mmax, wr, wi)[y]
            else s[y]
    decreases n + 1 - i
  {
    if i <= n {
      BlockSweepStep(s, n, mmax, i, wr, wi);
      BlockSweepAt(Butterfly(s, i, i + mmax, wr, wi), n, mmax, i + 2 * mmax, wr, wi, y);
      FirstBlock(s, n, mmax, i, wr, wi, y);
    }
  }

  /** The step of BlockSweepAt: the butterfly at i followed by the sweep from
      i + 2 * mmax sets slot y as the sweep from i says. */
  lemma FirstBlock(s: seq<real>, n: nat, mmax: nat, i: nat, wr: real, wi: real, y: nat)
    requires |s| == n && InPass(n, mmax, y) && i >= 1 && IsNear(i, mmax) && i + mmax < n
    ensures var s1 := Butterfly(s, i, i + mmax, wr, wi);
            var near := NearOf(y, mmax);
            var after := if near >= i + 2 * mmax && Class(near, mmax) == Class(i + 2 * mmax, mmax)
                         then Butterfly(s1, near, near + mmax, wr, wi)[y] else s1[y];
            var before := if near >= i && Class(near, mmax) == Class(i, mmax)
                          then Butterfly(s, near, near + mmax, wr, wi)[y] else s[y];
            after == before
  {
    ModAddModulus(i - 1, 2 * mmax);
    assert Class(i + 2 * mmax, mmax) == Class(i, mmax);
    var near := NearOf(y, mmax);
    if near >= i + 2 * mmax && Class(near, mmax) == Class(i, mmax) {
      LaterBlock(s, n, mmax, i, wr, wi, y);
    } else if near >= i && Class(near, mmax) == Class(i, mmax) {
      SameClassClose(near, i, mmax);
    } else {
      OtherBlock(s, n, mmax, i, wr, wi, y);
    }
  }

  /** A butterfly of a later block of the sweep is not disturbed by the first. */
  lemma LaterBlock(s: seq<real>, n: nat, mmax: nat, i: nat, wr: real, wi: real, y: nat)
    requires |s| == n && InPass(n, mmax, y) && i >= 1 && IsNear(i, mmax) && i + mmax < n
    requires NearOf(y, mmax) >= i + 2 * mmax
    ensures Butterfly(Butterfly(s, i, i + mmax, wr, wi), NearOf(y, mmax), NearOf(y, mmax) + mmax, wr, wi)[y]
         == Butterfly(s, NearOf(y, mmax), NearOf(y, mmax) + mmax, wr, wi)[y]
  {
    ButterflyLocal(Butterfly(s, i, i + mmax, wr, wi), s, NearOf(y, mmax), NearOf(y, mmax) + mmax, wr, wi, y);
  }

  /** A slot whose butterfly is not the one at i is not touched by it. */
  lemma OtherBlock(s: seq<real>, n: nat, mmax: nat, i: nat, wr: real, wi: real, y: nat)
    requires |s| == n && InPass(n, mmax, y) && i >= 1 && IsNear(i, mmax) && i + mmax < n
    requires NearOf(y, mmax) != i
    ensures Butterfly(s, i, i + mmax, wr, wi)[y] == s[y]
  {
    PairOfSlots(i, mmax);
  }

  /** A sweep of another offset leaves slot z as it was. */
  lemma SweepKeepsSlot(s: seq<real>, n: nat, mmax: nat, m: nat, wr: real, wi: real, z: nat)
    requires |s| == n && InPass(n, mmax, z) && SweptOffset(mmax, m) && Class(NearOf(z, mmax), mmax) != m - 1
    ensures BlockSweep(s, n, mmax, m, wr, wi)[z] == s[z]
  {
    BlockSweepAt(s, n, mmax, m, wr, wi, z);
  }

  /** A sweep of another offset leaves the four slots of the butterfly at near
      slot `near` as they were. */
  lemma SweepKeepsButterfly(s: seq<real>, n: nat, mmax: nat, m: nat, wr: real, wi: real, near: nat)
    requires |s| == n && PassShape(n, mmax) && SweptOffset(mmax, m)
    requires near >= 1 && IsNear(near, mmax) && near + mmax < n && Class(near, mmax) != m - 1
    ensures var s1 := BlockSweep(s, n, mmax, m, wr, wi);
            s1[near - 1] == s[near - 1] && s1[near] == s[near]
            && s1[near + mmax - 1] == s[near + mmax - 1] && s1[near + mmax] == s[near + mmax]
  {
    SweepKeepsSlotOf(s, n, mmax, m, wr, wi, near, near - 1);
    SweepKeepsSlotOf(s, n, mmax, m, wr, wi, near, near);
    SweepKeepsSlotOf(s, n, mmax, m, wr, wi, near, near + mmax - 1);
    SweepKeepsSlotOf(s, n, mmax, m, wr, wi, near, near + mmax);
  }

  /** SweepKeepsSlot for one of the four slots z of the butterfly at `near`. */
  lemma SweepKeepsSlotOf(s: seq<real>, n: nat, mmax: nat, m: nat, wr: real, wi: real, near: nat, z: nat)
    requires |s| == n && PassShape(n, mmax) && SweptOffset(mmax, m)
    requires near >= 1 && IsNear(near, mmax) && near + mmax < n && Class(near, mmax) != m - 1
    requires z + 1 == near || z == near || z + 1 == near + mmax || z == near + mmax
    ensures BlockSweep(s, n, mmax, m, wr, wi)[z] == s[z]
  {
    PairOfSlots(near, mmax);
    assert NearOf(z, mmax) == near;
    NearInside(z, n, mmax);
    SweepKeepsSlot(s, n, mmax, m, wr, wi, z);
  }

  // ---------------------------------------------------------------------------
  // What the offset loop does to one slot
  // ---------------------------------------------------------------------------

  /** What a slot y of the butterfly at near slot `near`, of offset c, holds
      after the offset sweep from odd m on with twiddle w at offset m: the value
      that butterfly gives it when c + 1 >= m, with the twiddle reached after
      (c + 1 - m) / 2 steps of the recurrence; the old value otherwise. */
  function SlotValue(s: seq<real>, mmax: nat, m: nat, w: (real, real), wpr: real, wpi: real,
                     y: nat, near: nat, c: nat): real
    requires mmax >= 2 && 1 <= near && near + mmax < |s| && y < |s|
  {
    if c + 1 >= m then
      var t := TwiddleAfter((c + 1 - m) / 2, w, wpr, wpi);
      Butterfly(s, near, near + mmax, t.0, t.1)[y]
    else s[y]
  }

  /** SlotValue for slot y and its own butterfly. */
  function SlotAfter(s: seq<real>, n: nat, mmax: nat, m: nat, w: (real, real), wpr: real, wpi: real, y: nat): real
    requires |s| == n && InPass(n, mmax, y)
  {
    SlotValue(s, mmax, m, w, wpr, wpi, y, NearOf(y, mmax), Class(NearOf(y, mmax), mmax))
  }

  /** The offset sweep from m on sets each slot as SlotAfter says. */
  lemma {:induction false} OffsetSweepAt(s: seq<real>, n: nat, mmax: nat, m: nat, w: (real, real), wpr: real, wpi: real, y: nat)
    requires |s| == n && InPass(n, mmax, y) && m % 2 == 1
    ensures OffsetSweep(s, n, mmax, m, w, wpr, wpi)[y] == SlotAfter(s, n, mmax, m, w, wpr, wpi, y)
    decreases mmax - m
  {
    if m < mmax {
      OffsetSweepStep(s, n, mmax, m, w, wpr, wpi);
      OffsetSweepAt(BlockSweep(s, n, mmax, m, w.0, w.1), n, mmax, m + 2, NextTwiddle(w, wpr, wpi), wpr, wpi, y);
      OffsetIsSwept(mmax, m);
      OffsetAt(s, n, mmax, m, w, wpr, wpi, y);
    } else {
      OffsetSweepDone(s, n, mmax, m, w, wpr, wpi, y);
    }
  }

  /** Once m reaches mmax every offset has been swept and nothing changes. */
  lemma OffsetSweepDone(s: seq<real>, n: nat, mmax: nat, m: nat, w: (real, real), wpr: real, wpi: real, y: nat)
    requires |s| == n && InPass(n, mmax, y) && m % 2 == 1 && m >= mmax
    ensures OffsetSweep(s, n, mmax, m, w, wpr, wpi) == s
    ensures SlotAfter(s, n, mmax, m, w, wpr, wpi, y) == s[y]
  {
    ClassOfNear(NearOf(y, mmax), mmax);
  }

  /** The sweep of offset m followed by the offset sweep from m + 2 sets slot y
      as the offset sweep from m does. */
  lemma OffsetAt(s: seq<real>, n: nat, mmax: nat, m: nat, w: (real, real), wpr: real, wpi: real, y: nat)
    requires |s| == n && InPass(n, mmax, y) && SweptOffset(mmax, m)
    ensures SlotAfter(BlockSweep(s, n, mmax, m, w.0, w.1), n, mmax, m + 2, NextTwiddle(w, wpr, wpi), wpr, wpi, y)
         == SlotAfter(s, n, mmax, m, w, wpr, wpi, y)
  {
    var c := Class(NearOf(y, mmax), mmax);
    ClassOfNear(NearOf(y, mmax), mmax);
    if c + 1 >= m + 2 {
      LaterOffset(s, n, mmax, m, w, wpr, wpi, y);
    } else if c + 1 == m {
      ThisOffset(s, n, mmax, m, w, wpr, wpi, y);
    } else {
      EarlierOffset(s, n, mmax, m, w, wpr, wpi, y);
    }
  }

  /** OffsetAt for a pair whose butterfly has an offset beyond m: the sweep of
      offset m leaves its four slots alone, and one step of the recurrence is
      taken. */
  lemma LaterOffset(s: seq<real>, n: nat, mmax: nat, m: nat, w: (real, real), wpr: real, wpi: real, y: nat)
    requires |s| == n && InPass(n, mmax, y) && SweptOffset(mmax, m)
    requires Class(NearOf(y, mmax), mmax) + 1 >= m + 2
    ensures SlotAfter(BlockSweep(s, n, mmax, m, w.0, w.1), n, mmax, m + 2, NextTwiddle(w, wpr, wpi), wpr, wpi, y)
         == SlotAfter(s, n, mmax, m, w, wpr, wpi, y)
  {
    var near := NearOf(y, mmax);
    SweepKeepsButterfly(s, n, mmax, m, w.0, w.1, near);
    NextOffsetKeeps(s, BlockSweep(s, n, mmax, m, w.0, w.1), mmax, m, w, wpr, wpi, y, near, Class(near, mmax));
  }

  /** If a buffer s1 still holds the four slots of a butterfly with offset
      c + 1 >= m + 2, its value from m + 2 with one more step of the recurrence
      is its value from m. */
  lemma NextOffsetKeeps(s: seq<real>, s1: seq<real>, mmax: nat, m: nat, w: (real, real), wpr: real, wpi: real,
                        y: nat, near: nat, c: nat)
    requires |s| == |s1| && mmax >= 2 && 1 <= near && near + mmax < |s| && c + 1 >= m + 2
    requires y + 1 == near || y == near || y + 1 == near + mmax || y == near + mmax
    requires s1[near - 1] == s[near - 1] && s1[near] == s[near]
    requires s1[near + mmax - 1] == s[near + mmax - 1] && s1[near + mmax] == s[near + mmax]
    ensures SlotValue(s1, mmax, m + 2, NextTwiddle(w, wpr, wpi), wpr, wpi, y, near, c)
         == SlotValue(s, mmax, m, w, wpr, wpi, y, near, c)
  {
    var k := (c + 1 - m) / 2;
    assert k - 1 == (c + 1 - (m + 2)) / 2;
    var t := TwiddleAfter(k - 1, NextTwiddle(w, wpr, wpi), wpr, wpi);
    assert TwiddleAfter(k, w, wpr, wpi) == t;
    ButterflyLocal(s1, s, near, near + mmax, t.0, t.1, y);
  }

  /** OffsetAt for a pair whose butterfly has offset m: the sweep of offset m
      applies it, with the current twiddle. */
  lemma ThisOffset(s: seq<real>, n: nat, mmax: nat, m: nat, w: (real, real), wpr: real, wpi: real, y: nat)
    requires |s| == n && InPass(n, mmax, y) && SweptOffset(mmax, m)
    requires Class(NearOf(y, mmax), mmax) + 1 == m
    ensures SlotAfter(BlockSweep(s, n, mmax, m, w.0, w.1), n, mmax, m + 2, NextTwiddle(w, wpr, wpi), wpr, wpi, y)
         == SlotAfter(s, n, mmax, m, w, wpr, wpi, y)
  {
    ClassOfNear(NearOf(y, mmax), mmax);
    BlockSweepAt(s, n, mmax, m, w.0, w.1, y);
  }

  /** OffsetAt for a pair whose butterfly has an offset below m: it was done
      before, and the sweep of offset m does not touch it. */
  lemma EarlierOffset(s: seq<real>, n: nat, mmax: nat, m: nat, w: (real, real), wpr: real, wpi: real, y: nat)
    requires |s| == n && InPass(n, mmax, y) && SweptOffset(mmax, m)
    requires Class(NearOf(y, mmax), mmax) + 1 < m
    ensures SlotAfter(BlockSweep(s, n, mmax, m, w.0, w.1), n, mmax, m + 2, NextTwiddle(w, wpr, wpi), wpr, wpi, y)
         == SlotAfter(s, n, mmax, m, w, wpr, wpi, y)
  {
    SweepKeepsSlot(s, n, mmax, m, w.0, w.1, y);
  }

  // ---------------------------------------------------------------------------
  // One pass
  // ---------------------------------------------------------------------------

  /** One pass: slot y ends as the one butterfly of the pass that holds its
      pair sets it, with the twiddle of that butterfly's offset, which is
      Class / 2 steps of the recurrence from (1, 0). */
  lemma DLPassAt(s: seq<real>, n: nat, mmax: nat, sin: real -> real, y: nat)
    requires |s| == n && PassShape(n, mmax) && y < n
    ensures InPass(n, mmax, y)
    ensures var step := TwiddleStep(mmax, sin);
            var t := TwiddleAfter(Class(NearOf(y, mmax), mmax) / 2, (1.0, 0.0), step.0, step.1);
            DLPass(s, n, mmax, sin)[y] == Butterfly(s, NearOf(y, mmax), NearOf(y, mmax) + mmax, t.0, t.1)[y]
  {
    NearInside(y, n, mmax);
    var step := TwiddleStep(mmax, sin);
    OffsetSweepAt(s, n, mmax, 1, (1.0, 0.0), step.0, step.1, y);
  }
}
