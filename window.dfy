/** `apply_flattop_window`: scales the real slot of each of the first numPoints
    pairs of an interleaved buffer by the matching window coefficient. */
module Window {

  /** The window loop: for each of the first numPoints pairs, the real slot is
      multiplied by the window coefficient of the same index. The window is a
      different array from the signal. */
  method ApplyFlattopWindow(signal: array<real>, window: array<real>, numPoints: nat)
    requires signal != window
    requires 2 * numPoints <= signal.Length && numPoints <= window.Length
    modifies signal
    ensures forall n :: 0 <= n < numPoints ==> signal[2 * n] == old(signal[2 * n]) * window[n]
    ensures forall y :: 0 <= y < signal.Length && (y % 2 == 1 || y >= 2 * numPoints) ==> signal[y] == old(signal[y])
  {
    var n := 0;
    while n < numPoints
      invariant 0 <= n <= numPoints
      invariant forall t :: 0 <= t < n ==> signal[2 * t] == old(signal[2 * t]) * window[t]
      invariant forall y :: 0 <= y < signal.Length && (y % 2 == 1 || y >= 2 * n) ==> signal[y] == old(signal[y])
    {
      signal[n * 2] := signal[n * 2] * window[n];
      n := n + 1;
    }
  }
}
