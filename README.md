# FFT phase extraction: a Dafny model

The repository measures the phase of one frequency bin of a sampled signal.
- The C programs window the samples (`apply_flattop_window`).
- They run an in-place radix-2 transform over an interleaved buffer `Re(0), Im(0), Re(1), Im(1), ...` (`real_fft`).
- They turn bin k into a calibrated angle in degrees (`myfftPhase`).
- A small serial driver (`USART3.h`) prints strings and integers on a microcontroller.
- Two Python scripts compute the same phase on numpy arrays (`myfftPhase`), and with a hand-written quadrant arctangent (`myatan2`, `get_signal_phase`).

The model has seven modules:

- `Bits` (bits.dfy): powers of two, the binary logarithm and the bit reversal `Rev(width, q)` of a pair index, with the arithmetic facts the index proofs use.
- `Fft` (fft.dfy): `real_fft` as a method over `array<real>`, proved against the specification function `Transform`.
  - `BitReverseReorder`: the swap loop with its odd index `j` and halving mask `m`. It yields `BitReversed`, the buffer whose pair p is the input pair `Rev(log2 nn, p)`.
  - `RealFft`, `RunPass`, `RunBlocks` and `ButterflyInPlace` carry the `mmax`, `m` and `i` loops of the Danielson-Lanczos passes.
  - Each loop is specified by a "remaining work" function: `DLPass`, `OffsetSweep`, `BlockSweep` and `Butterfly`.
  - `sin` is a parameter.
- `Butterflies` (butterflies.dfy): the structure of one pass.
  - Every slot lies in exactly one butterfly of the pass: the one at near slot `NearOf(y)`.
  - The pass leaves each slot as that one butterfly sets it, with the twiddle reached after `Class / 2` steps of the recurrence.
- `Window` (window.dfy): `apply_flattop_window` as a method over two arrays.
- `Phase` (phase.dfy): the C `myfftPhase`, over one function with the offset and the number of `+360` wraps as parameters.
  - +137.1126 with one wrap: treceriTestPhaseComputing.c and calculatePhaseFromFFT_TEST_ME.c:83-123, which is identical.
  - -222.884444 with two wraps: calculatePhaseFromFFT.c.
- `PyPhase` (pyphase.dfy): `myfftPhase` of animate_plot_files.py over a sequence of complex values with Python indexing, and `myatan2` / `get_signal_phase` of gen_sig_hanning.py.
- `Serial` (serial.dfy): the class `Usart3` whose only state is the sequence of characters sent so far. `Putch` appends one character; `Print`, `PrintInt` and `PrintIntWide` are built on it.

The three C files carry the same `real_fft` and `apply_flattop_window`:
- treceriTestPhaseComputing.c:277-351 and 396-400;
- calculatePhaseFromFFT_TEST_ME.c:134-208 and 239-243;
- calculatePhaseFromFFT.c:106-159 and 190-194.

The table cites the first copy.

Floating point is modelled by `real`. `sin`, `atan2`, `np.arctan2` and `math.atan` are function parameters. Their ranges, [-PI, PI] and (-PI/2, PI/2), are hypotheses of the lemmas that need them.

## Model

| member | source | states |
|---|---|---|
| Bits.Rev | treceriTestPhaseComputing/treceriTestPhaseComputing.c:298-303 | the reversed index of a pair is again a pair index below 2^width |
| Bits.RevInvolutive | treceriTestPhaseComputing/treceriTestPhaseComputing.c:289-304 | reversing the bits of a pair index twice gives the index back |
| Bits.RevIncrement | treceriTestPhaseComputing/treceriTestPhaseComputing.c:298-303 | clearing the leading one bits of the reversed index and setting the next zero bit gives the reversal of q + 1 |
| Fft.BitReverseReorder | treceriTestPhaseComputing/treceriTestPhaseComputing.c:289-304 | the swap loop leaves the buffer equal to BitReversed of its input: pair p holds the input pair Rev(log2 nn, p) |
| Fft.ReorderStep | treceriTestPhaseComputing/treceriTestPhaseComputing.c:291-303 | at pair q the swap test runs with j = 2 Rev(q) + 1, odd and below 2 nn; afterwards every pair below q + 1 and its partner are in place, and j is the partner slot of pair q + 1 |
| Fft.AdvanceReversedIndex | treceriTestPhaseComputing/treceriTestPhaseComputing.c:298-303 | the mask loop turns the slot of pair Rev(q) into the slot of pair Rev(q + 1) whenever q + 1 is still a pair index |
| Fft.SwapPairs | treceriTestPhaseComputing/treceriTestPhaseComputing.c:291-294 | the two SWAPs exchange two whole (re, im) pairs and leave every other pair alone |
| Fft.SwapStep | treceriTestPhaseComputing/treceriTestPhaseComputing.c:291-294 | swapping only when the partner is later keeps every pair either untouched or exchanged exactly once |
| Fft.BitReversedMovesPairs | treceriTestPhaseComputing/treceriTestPhaseComputing.c:289-304 | the reordering moves whole pairs: pair p of the result is pair Rev(p) of the input |
| Fft.BitReversedInvolutive | treceriTestPhaseComputing/treceriTestPhaseComputing.c:289-304 | reordering twice restores the buffer, so the reordering is a permutation of pairs |
| Fft.BitReversedKeepsRealInput | treceriTestPhaseComputing/treceriTestPhaseComputing.c:273-274 | an input whose imaginary slots are all zero still has all imaginary slots zero after reordering |
| Fft.NearBound | treceriTestPhaseComputing/treceriTestPhaseComputing.c:325-338 | a near slot admitted by `i <= n` has its far slot i + mmax below n, so the four slots i-1, i, j-1, j are in bounds |
| Fft.NearStep | treceriTestPhaseComputing/treceriTestPhaseComputing.c:325 | stepping by istep = 2 mmax lands on a near slot again |
| Fft.Butterfly | treceriTestPhaseComputing/treceriTestPhaseComputing.c:331-338 | near + far is twice the old near pair, near - far is twice the far pair rotated by (wr, wi), and no slot outside the four changes |
| Fft.ButterflyInPlace | treceriTestPhaseComputing/treceriTestPhaseComputing.c:331-338 | the four array assignments through tempr, tempi give exactly Butterfly of the old buffer |
| Fft.RunBlocks | treceriTestPhaseComputing/treceriTestPhaseComputing.c:325-339 | the `i` loop leaves the buffer equal to BlockSweep: every butterfly of offset m, block by block |
| Fft.RunPass | treceriTestPhaseComputing/treceriTestPhaseComputing.c:311-346 | the body of the `mmax` loop leaves the buffer equal to DLPass: offsets 1, 3, ..., mmax - 1, with the twiddle advanced by the recurrence after each |
| Fft.TwiddleStep | treceriTestPhaseComputing/treceriTestPhaseComputing.c:315-318 | the pass constants from theta = -2 PI / mmax: wpr = -2 sin^2(theta / 2), the real part of the step minus one, is never positive |
| Fft.NextTwiddle | treceriTestPhaseComputing/treceriTestPhaseComputing.c:343-345 | the recurrence through wtemp multiplies the twiddle (wr, wi) by the complex step (1 + wpr, wpi) |
| Fft.NextTwiddleModulus | treceriTestPhaseComputing/treceriTestPhaseComputing.c:343-345 | the recurrence multiplies the squared modulus of the twiddle by that of the step, so a unit step keeps the twiddle on the unit circle |
| Fft.PassSizes | treceriTestPhaseComputing/treceriTestPhaseComputing.c:309-350 | every mmax the pass loop runs with is an even half-block at least 2 and below n, and its blocks of 2 mmax slots tile the buffer |
| Fft.PassSizeStep | treceriTestPhaseComputing/treceriTestPhaseComputing.c:349 | doubling a power-of-two mmax below n gives a valid pass and another power of two |
| Fft.PassSchedule | treceriTestPhaseComputing/treceriTestPhaseComputing.c:309-350 | from mmax = 2^(a+1) the loop runs exactly with 2^(a+1), ..., 2^width and stops at n = 2^(width+1) |
| Fft.PassCount | treceriTestPhaseComputing/treceriTestPhaseComputing.c:309-350 | real_fft makes exactly log2(nn) passes, the k-th with mmax = 2^(k+1), so 2, 4, ..., nn |
| Fft.RealFft | treceriTestPhaseComputing/treceriTestPhaseComputing.c:277-351 | real_fft leaves the buffer equal to Transform: the bit-reversed input followed by the passes mmax = 2, 4, ..., nn |
| Butterflies.NearOrFar | treceriTestPhaseComputing/treceriTestPhaseComputing.c:324-328 | every odd slot is the near slot of a butterfly or the far slot mmax above one, never both |
| Butterflies.NearInside | treceriTestPhaseComputing/treceriTestPhaseComputing.c:324-338 | every slot of the buffer is one of the four slots of the butterfly at NearOf(y), and that butterfly lies inside the buffer |
| Butterflies.OneButterflyPerSlot | treceriTestPhaseComputing/treceriTestPhaseComputing.c:324-338 | slot y is one of the four slots of the butterfly at near slot i if and only if i = NearOf(y): each pair is in exactly one butterfly of the pass |
| Butterflies.PairOfSlots | treceriTestPhaseComputing/treceriTestPhaseComputing.c:328-338 | all four slots of the butterfly at near slot i map back to i |
| Butterflies.ButterflyLocal | treceriTestPhaseComputing/treceriTestPhaseComputing.c:331-338 | a butterfly reads and writes only its four slots |
| Butterflies.BlockSweepAt | treceriTestPhaseComputing/treceriTestPhaseComputing.c:325-339 | the `i` loop of one offset changes slot y exactly when y's butterfly has that offset and lies at or after the start, and then as that butterfly sets it |
| Butterflies.SweepKeepsButterfly | treceriTestPhaseComputing/treceriTestPhaseComputing.c:324-339 | the `i` loop of one offset leaves the four slots of a butterfly of any other offset unchanged |
| Butterflies.OffsetSweepAt | treceriTestPhaseComputing/treceriTestPhaseComputing.c:324-346 | the `m` loop from offset m sets each slot as its own butterfly does, with the twiddle after (Class + 1 - m) / 2 steps, or leaves it alone if its offset was already passed |
| Butterflies.DLPassAt | treceriTestPhaseComputing/treceriTestPhaseComputing.c:311-346 | one pass sets every slot y exactly as the single butterfly at NearOf(y) sets it, with the twiddle of that butterfly's offset |
| Window.ApplyFlattopWindow | treceriTestPhaseComputing/treceriTestPhaseComputing.c:396-400 | signal[2n] becomes signal[2n] * w[n] for n < num_points; every odd slot and every slot from 2 num_points on is unchanged |
| Phase.ToULong | treceriTestPhaseComputing/treceriTestPhaseComputing.c:240 | the conversion of the int k to unsigned long for `k >= nn / 2`: a negative k becomes k + 2^64 |
| Phase.FftPhase | treceriTestPhaseComputing/treceriTestPhaseComputing.c:239-251 | returns 0 when k >= nn / 2, including every negative k, and when both parts of bin k are below EPSILON |
| Phase.FftPhaseReadsOneBin | treceriTestPhaseComputing/treceriTestPhaseComputing.c:245-246 | for an in-range k both 2k and 2k + 1 are below 2 nn, and the result depends on data only through those two slots |
| Phase.FftPhaseValue | treceriTestPhaseComputing/treceriTestPhaseComputing.c:254-265 | otherwise the result is the degree angle of bin k plus the offset, plus 360 once for each wrap that fires |
| Phase.Wrap | treceriTestPhaseComputing/treceriTestPhaseComputing.c:261-263 | each conditional +360 (one here, two at calculatePhaseFromFFT.c:78-92) adds a whole turn only to a negative angle: the result is between a and a + 360 per wrap, and a non-negative angle is left as it is |
| Phase.FftPhasePlus | treceriTestPhaseComputing/treceriTestPhaseComputing.c:239-266 | the myfftPhase of treceriTestPhaseComputing.c and calculatePhaseFromFFT_TEST_ME.c:83-123: offset +137.1126 and one wrap; definition, no contract (FftPhasePlusRange states its range) |
| Phase.FftPhaseMinus | PhaseComputationTests/calculatePhaseFromFFT/calculatePhaseFromFFT.c:51-95 | the myfftPhase of calculatePhaseFromFFT.c: offset -222.884444 and two wraps; definition, no contract (FftPhaseMinusRange states its range) |
| Phase.WrapAddsTurns | treceriTestPhaseComputing/treceriTestPhaseComputing.c:261-263 | the wraps add only whole turns of 360 and leave a non-negative angle as it is |
| Phase.WrapRange | treceriTestPhaseComputing/treceriTestPhaseComputing.c:261-263 | w wraps land in [0, 360) if and only if the angle is in [-360 w, 360) |
| Phase.DegreeRange | treceriTestPhaseComputing/treceriTestPhaseComputing.c:254-257 | atan2 in [-PI, PI] times RAD2DEG lies in [-180, 180], up to the rounding of the two decimal constants |
| Phase.FftPhasePlusRange | treceriTestPhaseComputing/treceriTestPhaseComputing.c:239-266 | with offset +137.1126 one wrap suffices: the phase lies in [0, 360) |
| Phase.FftPhaseMinusRange | PhaseComputationTests/calculatePhaseFromFFT/calculatePhaseFromFFT.c:51-95 | with offset -222.884444 two wraps suffice: the phase lies in [0, 360) |
| Phase.OneWrapTooFewForMinus | PhaseComputationTests/calculatePhaseFromFFT/calculatePhaseFromFFT.c:75-80 | with offset -222.884444 a single wrap leaves a bin just below the negative real axis (angle near -PI, result near -42.83) negative |
| PyPhase.Index | PhaseComputationTests/treceriTestPhaseComputing/animate_plot_files.py:17-18 | Python indexing: a negative index counts from the end, and anything outside [-len, len) raises IndexError |
| PyPhase.FftPhase | PhaseComputationTests/treceriTestPhaseComputing/animate_plot_files.py:12-41 | returns 0.0 when k >= nn / 2 (float division) and when both parts are below 1e-10; for other k it raises exactly when the index is out of range |
| PyPhase.FftPhaseRange | PhaseComputationTests/treceriTestPhaseComputing/animate_plot_files.py:25-41 | with arctan2 in [-pi, pi] up to that margin, every result that does not raise lies in [0, 360) |
| PyPhase.DegreeRange | PhaseComputationTests/treceriTestPhaseComputing/animate_plot_files.py:25-28 | arctan2 in [-pi, pi], up to a margin of 1e-12 for the float np.pi, times 180 / pi is in [-180, 180] up to 1e-10 |
| PyPhase.FftPhaseReadsOneBin | PhaseComputationTests/treceriTestPhaseComputing/animate_plot_files.py:17-18 | the result depends on fft_data only through the one element fft_data[k] |
| PyPhase.NegativeIndexReadsFromEnd | PhaseComputationTests/treceriTestPhaseComputing/animate_plot_files.py:13-18 | unlike the C version, a negative k is not sent to 0: it reads the bin len + k from the end |
| PyPhase.MyAtan2 | treceriTestPhaseComputing/gen_sig_hanning.py:9-23 | myatan2(0, 0) is 0, myatan2(y, 0) is PI/2 for y > 0 and -PI/2 + 2 PI for y < 0 |
| PyPhase.MyAtan2IsQuadrantChain | treceriTestPhaseComputing/gen_sig_hanning.py:11-20 | the five independent ifs act as one if-else chain, so at most one assignment takes effect |
| PyPhase.MyAtan2Range | treceriTestPhaseComputing/gen_sig_hanning.py:9-23 | with atan in (-PI/2, PI/2), myatan2 lies in [0, 2 PI) |
| PyPhase.FloorMod | treceriTestPhaseComputing/gen_sig_hanning.py:39 | Python's float `%` with modulus 360 gives r in [0, 360) with (a - r) / 360 a whole number |
| PyPhase.SignalPhase | treceriTestPhaseComputing/gen_sig_hanning.py:30-40 | get_signal_phase lies in [0, 360) for every input |
| PyPhase.SignalPhaseBranchDead | treceriTestPhaseComputing/gen_sig_hanning.py:34-39 | with atan in range the `tmp < 0` branch never runs, and the phase is the floored remainder of the degree angle minus 222.884444 |
| Serial.Usart3.Putch | TestFFTPhaseComputation/USART3.h:14-20 | sending a character appends it to the trace |
| Serial.Usart3.Print | TestFFTPhaseComputation/USART3.h:23-32 | USART3_Print appends Printed(s) to the trace and nothing else |
| Serial.PrintStop | TestFFTPhaseComputation/USART3.h:27-29 | the loop stops at the first NUL or at index 64, whichever comes first |
| Serial.Printed | TestFFTPhaseComputation/USART3.h:27-30 | the printed text is a NUL-free prefix of s of at most 64 characters, ended by a NUL of s unless it has 64 characters |
| Serial.PrintedIsLongest | TestFFTPhaseComputation/USART3.h:27-31 | no NUL-free prefix of s of at most 64 characters is longer than what is printed: the loop sends the longest such prefix |
| Serial.Usart3.PrintInt | TestFFTPhaseComputation/USART3.h:35-53 | for -9999..9999 the trace grows by '-' when the number is negative, then the decimal digits of its magnitude |
| Serial.Usart3.PrintIntBuffered | TestFFTPhaseComputation/USART3.h:37-52 | with a digit buffer longer than the digit count, the trace grows by the sign and the decimal representation of the magnitude |
| Serial.StoreDigits | TestFFTPhaseComputation/USART3.h:45-51 | the storing loop ends with i equal to the digit count, every stored cell a digit, and cells i down to 1 spelling the number |
| Serial.Usart3.SendDigits | TestFFTPhaseComputation/USART3.h:52 | the emitting loop sends cells j down to 1 as characters, most significant digit first |
| Serial.Decimal | TestFFTPhaseComputation/USART3.h:45-52 | the decimal representation has DigitCount characters, each in '0'..'9' |
| Serial.DecimalRoundTrip | TestFFTPhaseComputation/USART3.h:45-52 | reading the printed digits back gives the number |
| Serial.DecimalNoLeadingZero | TestFFTPhaseComputation/USART3.h:45-52 | the output has no leading zero: it starts with '0' only for 0, which prints "0" |
| Serial.DigitCountBound | TestFFTPhaseComputation/USART3.h:45-50 | a number has at most d digits if and only if it is below 10^d |
| Serial.FourDigits | TestFFTPhaseComputation/USART3.h:37 | the digit count is at most 4, the most that cells 1..4 of `s[5]` hold, exactly when the magnitude is at most 9999 |
| Serial.FiveDigitNumberOverflowsBuffer | TestFFTPhaseComputation/USART3.h:37-50 | 12345 has 5 digits, so the final `s[i] = number` writes s[5], past the buffer |
| Serial.Usart3.PrintIntWide | TestFFTPhaseComputation/USART3.h:35-53 | with an 11-cell buffer every int except INT_MIN prints as its sign and decimal digits |

## Left out

- Phase.ToULong: the conversion of a negative k is modulo 2^64, the 64-bit `unsigned long` of LP64 targets. On LLP64 targets it is modulo 2^32, which gives the same 0 for every negative k but is not modelled.
- Serial: the trace and the strings are Dafny `char`s, which are Unicode scalar values. The port sends `unsigned char` bytes, and the model does not restrict characters to the range 0..255.
- Floating point: every float and double is a `real`. Rounding, single versus double precision, NaN, and float `EPSILON` comparisons are not modelled.
- Fft.RealFft: the transform values are stated as the exact real-number butterflies of the source with `sin` a parameter. No DFT identity is claimed, and the twiddle recurrence is carried symbolically (`TwiddleAfter`) and never compared with cos/sin.
- Fft.BitReverseReorder: the permutation is stated pointwise, as BitReversed plus its involution (`BitReversedInvolutive`), and not as a multiset equality.
- Fft.RealFft: the unsigned long `n = nn << 1` and the index variables are unbounded naturals, so wrap-around for nn >= 2^63 is not modelled.
- Phase.FftPhase: `2 * k` is computed in `int` in the source; its overflow, which needs a buffer of more than 2^32 floats, is not modelled.
- Phase.DegreeRange: the range of `atan2` is a hypothesis, and the bound is widened by 1e-10 for the decimal values of PI and RAD2DEG.
- PyPhase.MyAtan2Range: the range of `math.atan` is a hypothesis; `y / x` is real division.
- PyPhase.SignalPhase: Python's `(-tiny) % 360.0 == 360.0` rounding case does not arise over reals, so the model's result is always below 360.
- Window.ApplyFlattopWindow: the window must be a different array from the signal. `num_points` is a natural number: a negative C `int` would be converted to a huge `size_t` in `n < num_points`, and that loop is not modelled.
- Serial.Usart3.Print: the string must contain a NUL or have at least 64 characters; otherwise the C loop reads past the array.
- Serial.Usart3.PrintIntWide: INT_MIN is excluded, because `number = -number` overflows there.
- `USART3_Init` and the hardware side of `USART3_Putch` (the data register and the busy-wait on the transmit flag) are not part of this model. `Putch` is only the trace append.
- Window generation (`generate_flat_top_window`, `generate_hanning_window`), `generate_sine_wave`, the window file dump, and every `main` loop and printf harness are not modelled. They are cosine and sine formulas, random numbers and file I/O.
- The Python plotting and file scanning (`plot_sine_wave.py`, `plotSineWaveWithNoise.py`, `plot_sine_wave` and `extract_phase`, `get_wave_phase_as_complex`, the script body of gen_sig_hanning.py) are not modelled. They are numpy FFT, matplotlib, glob and regex wrappers.
- The calibration constants 137.1126 and -222.884444 are taken as given. Only the wrap range for each is proved.

## Findings

| source | as written | input that shows it | evidently intended | confidence | as-written member | corrected member |
|---|---|---|---|---|---|---|
| TestFFTPhaseComputation/USART3.h:37-50 | `unsigned char s[5]` with digits stored from `s[1]` holds at most four digits; the final `s[i] = number` writes index DigitCount | `USART3_Print_Int(12345)` stores into s[1]..s[4] and then writes s[5], one past the array | a buffer with room for all ten digits of an `int` | not executed | Serial.FiveDigitNumberOverflowsBuffer | Serial.Usart3.PrintIntWide |
