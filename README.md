# Verified model of the WebAssembly audio kernels

This project is a Dafny model of the three C++ kernels that the recitation
analyser compiles to WebAssembly, together with proofs about them:

- **Dynamic time warping** (`src/wasm/dtw.cpp`, module `Dtw` in `dtw.dfy`).
  The class `DynamicTimeWarping` fills an (n+1) x (m+1) cumulative-cost table
  and a direction table in place (`array2` fields).
  - It breaks ties between the three neighbours diagonal first, then horizontal.
  - It backtracks the alignment path and reverses it.
  - Variants: Euclidean or Manhattan metric, the Sakoe-Chiba banded variant,
    the normalised distance, and the two flat-buffer C entry points.
  - The specification is the recursive function `CostAt` with `StepAt` and `PathFrom`.
  - The proofs cover:
    - the path is a warping path from (0,0) to (n-1,m-1) whose cost is the distance;
    - no warping path in the band is cheaper;
    - the distance is symmetric;
    - a sequence aligned with itself has distance 0 and the diagonal path;
    - the band never lowers the distance.
- **Hidden Markov model decoding** (`src/wasm/hmm.cpp`, module `Hmm` in `hmm.dfy`).
  The class `HiddenMarkovModel` holds its probability matrices as fields that
  the setters replace.
  - Viterbi fills the delta/psi lattices, takes the argmax of the last row,
    follows the back-pointers and reads the per-step probabilities.
  - Forward and backward fill alpha and beta with `logSum` in place of max.
  - The specification is the cell-level recursion `Delta`/`Psi`, `Alpha` and `Beta`.
  - The proofs cover:
    - the Viterbi path follows the back-pointers and scores exactly the reported probability;
    - no state sequence scores higher;
    - the forward total bounds the last alpha row and the Viterbi probability;
    - an out-of-vocabulary symbol forces -infinity.
- **Feature extraction** (`src/wasm/audio_processor.cpp`, module `Audio` in `audio.dfy`).
  - Framing with a hop, and the 17-value feature row: 13 MFCCs, energy,
    zero-crossing rate, spectral centroid and pitch.
  - Zero-crossing counting, and the autocorrelation pitch search with its 0 sentinel.
  - The triangular mel filter bank built from integer bin points.
  - MFCC truncation and padding, the centroid's zero-denominator guard, and
    the row-major output of the C entry points.
  - The transcendental functions are a parameter `Maths` (cos, sin, sqrt, ln,
    log10, 10^x). The predicate `Sound` lists the few facts the proofs assume of them.
  - `Maths` also carries `nan`, an unknown value standing for the NaN that the
    Hamming window of a one-sample frame computes (0 / 0). For such a frame the
    magnitude spectrum has no bins, so the value never reaches the coefficients:
    `Audio.OneSampleCepstrum` and `Audio.OneSampleCepstrumIgnoresNan` prove it.
- **Row-major layout** (module `Layout` in `layout.dfy`). This is the
  `i * width + j` indexing shared by all three C entry points, with both round
  trips between a flat buffer and a matrix.

Modelling choices:

- Doubles are modelled by Dafny reals with an explicit infinity:
  `Dtw.Cost = Finite(r) | Infinity` and `Hmm.LogProb = NegInf | Log(r)`.
- `std::sqrt` in the DTW metric is a parameter `sqrt`. Where it matters it is
  required to map 0 to 0 and never be negative.
- `std::log` and `log(1 + exp(x))` in the HMM are the parameter `LogMaths`.

Where the specification of the system and the code disagree, the model follows the code:

- The zero-crossing test is `(x[i] >= 0) != (x[i-1] >= 0)`, not a three-way sign.
- The HMM takes `log` of raw probabilities with no epsilon floor, so a zero
  probability gives -infinity.
- `computeNormalizedDistance` divides only when the path is non-empty.
- The banded variant always uses the Euclidean metric.

## Model

| member | source | states |
|---|---|---|
| Layout.RowStartIsProduct | src/wasm/dtw.cpp:221-231 | the start of row i in a buffer of width w is i * w |
| Layout.Row | src/wasm/dtw.cpp:222-224 | row i has w elements and element j is flat[i * w + j] |
| Layout.Unflattened | src/wasm/dtw.cpp:218-231 | the matrix read from the buffer has the given row count, and row i is the i-th block of w values |
| Layout.UnflattenedAt | src/wasm/dtw.cpp:221-231 | element (i, j) of the unflattened matrix is flat[i * w + j] |
| Layout.Unflatten | src/wasm/dtw.cpp:218-231 | the nested copy loops build exactly the unflattened matrix, rows x w |
| Layout.UnflattenThenFlat | src/wasm/dtw.cpp:221-231 | flattening the unflattened matrix gives back the prefix of the buffer it covers |
| Layout.FlatLayout | src/wasm/audio_processor.cpp:288-293 | writing rows of width w one after another puts element (i, j) at i * w + j, rows x w values in all |
| Layout.FlatThenUnflatten | src/wasm/audio_processor.cpp:285-293 | unflattening the written buffer gives the rows back |
| Layout.Flatten | src/wasm/audio_processor.cpp:285-293 | the copy loop writes the concatenation of the rows, rows x w values for rectangular rows |
| Dtw.Min3 | src/wasm/dtw.cpp:76 | std::min of three costs is one of them and below all three |
| Dtw.Min3Swap | src/wasm/dtw.cpp:76 | the minimum does not depend on the order of insertion and deletion |
| Dtw.SumSquaresSymmetric | src/wasm/dtw.cpp:25-29 | the sum of squared differences is symmetric in the two vectors |
| Dtw.SumAbsSymmetric | src/wasm/dtw.cpp:38-41 | the sum of absolute differences is symmetric in the two vectors |
| Dtw.SumsNonNegative | src/wasm/dtw.cpp:25-42 | both accumulated sums are never negative |
| Dtw.SumsOfSelf | src/wasm/dtw.cpp:25-42 | both sums are 0 for a vector against itself |
| Dtw.Distance | src/wasm/dtw.cpp:20-43 | the local cost of two feature vectors: +infinity when their sizes differ, else sqrt of the sum of squared differences (Euclidean) or the sum of absolute differences (Manhattan); its symmetry, self-distance and sign are the three lemmas below |
| Dtw.DistanceSymmetric | src/wasm/dtw.cpp:20-43 | both metrics, including the +infinity size check, are symmetric |
| Dtw.DistanceToSelf | src/wasm/dtw.cpp:20-43 | a vector is at distance 0 from itself under either metric when sqrt(0) = 0 |
| Dtw.DistanceNonNegative | src/wasm/dtw.cpp:20-43 | no local cost is negative |
| Dtw.DynamicTimeWarping.EuclideanDistance | src/wasm/dtw.cpp:20-31 | the accumulator loop returns +infinity for vectors of different sizes, else sqrt of the sum of squared differences |
| Dtw.DynamicTimeWarping.ManhattanDistance | src/wasm/dtw.cpp:33-43 | the accumulator loop returns +infinity for vectors of different sizes, else the sum of absolute differences |
| Dtw.CostAt | src/wasm/dtw.cpp:57-77 | cell (i, j) of the cumulative-cost table: 0 at the origin, +infinity on the rest of row 0 and column 0 and outside the band, otherwise the local cost of (i-1, j-1) plus the minimum of the match, insertion and deletion neighbours; Dtw.CostNonNegative and Dtw.NoCheaperPath state what it means |
| Dtw.TieBreak | src/wasm/dtw.cpp:80-86 | the direction code of a cell: diagonal when the match neighbour holds the minimum, else horizontal when the insertion neighbour does, else vertical |
| Dtw.StepAt | src/wasm/dtw.cpp:58-86 | cell (i, j) of the direction table: the initial -1 on row 0, column 0 and outside the band, otherwise the tie-broken direction of the cell's minimum; Dtw.StepCost and Dtw.NextInBand state what it means |
| Dtw.BacktrackStep | src/wasm/dtw.cpp:97-107 | one turn of the switch: the indices stay put exactly when the direction is the initial -1; otherwise they move to one of the three neighbours |
| Dtw.NextInBand | src/wasm/dtw.cpp:131-153 | every filled cell of the band records a direction, and it leads to a filled cell or to row 0 or column 0 |
| Dtw.PathFrom | src/wasm/dtw.cpp:91-110 | the path the backtracking loop collects from a cell of the band, in forward order: empty at row 0 or column 0, else the path from the neighbour the direction table names followed by the cell; Dtw.PathFromSound states what it means |
| Dtw.CostNonNegative | src/wasm/dtw.cpp:57-77 | no cell of the cumulative-cost table is negative |
| Dtw.FiniteInBand | src/wasm/dtw.cpp:131-153 | with vectors of one size every cell inside the band has a finite cost |
| Dtw.StepCost | src/wasm/dtw.cpp:80-86 | the neighbour the recorded direction names holds the minimum the cell was built from |
| Dtw.PathFromUnfold | src/wasm/dtw.cpp:94-107 | the path from a cell is the path from the neighbour its direction names, followed by the cell |
| Dtw.PathFromSound | src/wasm/dtw.cpp:91-110 | the backtracked path from a cell of the band is a warping path to it, stays in the band and costs exactly the cell's value |
| Dtw.NoCheaperPath | src/wasm/dtw.cpp:63-77 | no warping path in the band to a cell costs less than the cell's value |
| Dtw.PathBelowEnd | src/wasm/dtw.cpp:94-107 | along a warping path neither coordinate ever decreases |
| Dtw.PathProgress | src/wasm/dtw.cpp:94-107 | after k moves a path has advanced by at least the larger and at most the sum of its coordinates |
| Dtw.WarpingPathLength | src/wasm/dtw.cpp:91-110 | a warping path of n with m vectors has between max(n, m) and n + m - 1 points |
| Dtw.Align | src/wasm/dtw.cpp:46-113 | the result of compute: +infinity and no path when either sequence is empty or the final cell lies outside the band, else the final cell's cost and the path backtracked from it |
| Dtw.Normalized | src/wasm/dtw.cpp:184 | the distance divided by the path length, or the distance unchanged when the path is empty |
| Dtw.AlignIsOptimal | src/wasm/dtw.cpp:46-113 | for non-empty comparable sequences with (n, m) in the band: the distance is finite; the path runs from (0,0) to (n-1,m-1) by unit moves inside the band; its cost is the distance; no such path is cheaper |
| Dtw.AlignPathLength | src/wasm/dtw.cpp:180-185 | the divisor of the normalised distance lies between max(n, m) and n + m - 1, so normalising never increases a non-negative distance |
| Dtw.ZeroCornerIsMin | src/wasm/dtw.cpp:80-86 | a diagonal neighbour of cost 0 is the minimum and wins the tie-break |
| Dtw.DiagonalCostOfSelf | src/wasm/dtw.cpp:72-77 | aligning a sequence with itself, every diagonal cell is in the band and costs 0 |
| Dtw.DiagonalPathStep | src/wasm/dtw.cpp:94-100 | from a diagonal cell of a self-alignment the backtrack steps diagonally |
| Dtw.DiagonalOfSelf | src/wasm/dtw.cpp:91-110 | the path backtracked from diagonal cell (i, i) of a self-alignment is (0,0), ..., (i-1,i-1) |
| Dtw.SelfAlignment | src/wasm/dtw.cpp:46-113 | a non-empty sequence aligned with itself has distance 0, the purely diagonal path and normalised distance 0 |
| Dtw.CostSymmetric | src/wasm/dtw.cpp:63-77 | cell (i, j) of the table for (a, b) equals cell (j, i) of the table for (b, a), band included |
| Dtw.AlignSymmetric | src/wasm/dtw.cpp:46-113 | exchanging the two sequences leaves the distance unchanged, for either metric and any band |
| Dtw.BandNeverLowersCost | src/wasm/dtw.cpp:131-143 | every cell of the banded table is at least the same cell of the unconstrained table |
| Dtw.BandedNeverBelow | src/wasm/dtw.cpp:115-178 | the banded distance is at least the unconstrained distance on the same inputs |
| Dtw.BacktrackStallsOutsideBand | src/wasm/dtw.cpp:159-173 | when (n, m) lies outside the band its direction is the initial -1 and the loop's indices never move (the defect under Findings); the corrected result is +infinity with no path |
| Dtw.Reversed | src/wasm/dtw.cpp:110 | std::reverse: same length, element k is element len - 1 - k of the input |
| Dtw.DynamicTimeWarping.constructor | src/wasm/dtw.cpp:15-18 | a new aligner starts with empty tables |
| Dtw.DynamicTimeWarping.FillCell | src/wasm/dtw.cpp:64-86 | one cell gets local cost plus the cheapest neighbour and the tie-broken direction; no other cell changes |
| Dtw.DynamicTimeWarping.Fill | src/wasm/dtw.cpp:63-88 | after the nested loops every cell of both tables holds CostAt and StepAt, with +infinity and -1 outside the band |
| Dtw.DynamicTimeWarping.Backtrack | src/wasm/dtw.cpp:91-110 | the while loop plus std::reverse yields exactly the path PathFrom(n, m) |
| Dtw.DynamicTimeWarping.Run | src/wasm/dtw.cpp:46-113 | +infinity and an empty path for an empty sequence, leaving the tables alone; otherwise fresh tables holding every cell, and the result Align |
| Dtw.DynamicTimeWarping.Compute | src/wasm/dtw.cpp:46-113 | compute returns Align with the metric named (only "manhattan" selects Manhattan) and no band |
| Dtw.DynamicTimeWarping.ComputeConstrained | src/wasm/dtw.cpp:115-178 | the Euclidean banded alignment; every cell outside [max(1, i-w), min(m, i+w)] stays +infinity; (n, m) outside the band gives +infinity and no path |
| Dtw.DynamicTimeWarping.ComputeNormalizedDistance | src/wasm/dtw.cpp:180-185 | the Euclidean distance divided by the path length when the path is non-empty, else the distance itself |
| Dtw.FlatProblemLayout | src/wasm/dtw.cpp:218-231 | the sequences read from the buffers have the given lengths, all vectors have size dim, and vector i element j is buffer[i * dim + j] |
| Dtw.FlatDistanceSymmetric | src/wasm/dtw.cpp:212-236 | exchanging the two buffers of the entry point leaves the distance unchanged |
| Dtw.ComputeDtwDistance | src/wasm/dtw.cpp:212-236 | +infinity when the feature dimensions differ, else the Euclidean DTW distance of the unflattened sequences |
| Dtw.ComputeNormalizedDtw | src/wasm/dtw.cpp:239-262 | +infinity when the feature dimensions differ, else the normalised Euclidean DTW distance |
| Hmm.Add | src/wasm/hmm.cpp:73-74 | a sum in log space is -infinity exactly when one operand is |
| Hmm.AddMonotone | src/wasm/hmm.cpp:88 | adding the same log-probability keeps the order |
| Hmm.LogSum | src/wasm/hmm.cpp:29-38 | -infinity on either side returns the other operand; the result is -infinity only when both are |
| Hmm.LogSumCommutes | src/wasm/hmm.cpp:29-38 | the two mirrored branches make logSum symmetric in its arguments |
| Hmm.LogSumAboveBoth | src/wasm/hmm.cpp:29-38 | logSum is at least the larger argument when log(1 + exp(x)) is non-negative |
| Hmm.Fold | src/wasm/hmm.cpp:169-172 | the logSum accumulator is -infinity exactly when every folded value is |
| Hmm.FoldAboveAll | src/wasm/hmm.cpp:169-172 | the folded total is at least every value folded into it |
| Hmm.Scan | src/wasm/hmm.cpp:105-113 | the argmax scan from (-infinity, 0) reports an index below the count holding the reported value, and 0 when the maximum is -infinity |
| Hmm.ScanIsFirstMax | src/wasm/hmm.cpp:105-113 | the scanned value is the maximum, and every earlier index holds a strictly smaller value (strict >) |
| Hmm.ArgMax | src/wasm/hmm.cpp:105-113 | the termination loop computes the scan of the whole last row |
| Hmm.Best | src/wasm/hmm.cpp:84-93 | the inner scan reports a predecessor whose delta plus transition is the reported value, or 0 with -infinity |
| Hmm.BestIsFirstMax | src/wasm/hmm.cpp:84-93 | the inner scan finds the maximum over predecessors and the lowest one attaining it |
| Hmm.Psi | src/wasm/hmm.cpp:78-100 | every back-pointer is a state of the model |
| Hmm.Delta | src/wasm/hmm.cpp:71-101 | delta[t][j]: log pi[j] + log B[j][o_0] at t = 0, afterwards the best predecessor score plus log B[j][o_t]; Hmm.ViterbiRecurrence, Hmm.ScoreBelowDelta and Hmm.PathScoreIsDelta state what it means |
| Hmm.DeltaRow | src/wasm/hmm.cpp:71-101 | row t of delta has one cell per state |
| Hmm.ViterbiRecurrence | src/wasm/hmm.cpp:82-101 | delta[t][j] = max_i(delta[t-1][i] + log A[i][j]) + log B[j][o_t]; psi is the lowest maximising i; all -infinity gives psi 0 and delta -infinity |
| Hmm.OutOfVocabulary | src/wasm/hmm.cpp:72-77 | a symbol at or above numObservations makes every delta and alpha of its step -infinity |
| Hmm.StateAt | src/wasm/hmm.cpp:116-121 | every state of the backtracked path is a state of the model |
| Hmm.StateAtStep | src/wasm/hmm.cpp:119-121 | before the last step the path's state is the back-pointer of the next state |
| Hmm.ViterbiOf | src/wasm/hmm.cpp:60-130 | no observations give an empty path, no probabilities and -infinity; otherwise a path of length T of valid states with probabilities[t] = delta[t][path[t]] |
| Hmm.ViterbiPathFollowsPsi | src/wasm/hmm.cpp:116-121 | path[t] = psi[t+1][path[t+1]] for every t < T - 1 |
| Hmm.ViterbiProbabilityIsMax | src/wasm/hmm.cpp:105-129 | the returned probability equals probabilities[T-1] and no state of the last step has a larger delta |
| Hmm.ScoreBelowDelta | src/wasm/hmm.cpp:71-102 | every state sequence ending in s at step t scores at most delta[t][s] |
| Hmm.PathScoreIsDelta | src/wasm/hmm.cpp:82-121 | a state sequence that follows the back-pointers scores exactly delta of its last state |
| Hmm.ViterbiOptimal | src/wasm/hmm.cpp:71-129 | the reported probability is the score of the reported path, and no state sequence of length T scores higher |
| Hmm.LastStateIsArgMax | src/wasm/hmm.cpp:105-117 | the path's last state is the argmax of the last delta row |
| Hmm.ViterbiOfParts | src/wasm/hmm.cpp:116-129 | a path of backtracked states, its per-step deltas and the last delta together are the Viterbi result |
| Hmm.ViterbiPathScore | src/wasm/hmm.cpp:105-129 | the score of the reported path equals the reported probability |
| Hmm.ScoreBelowViterbi | src/wasm/hmm.cpp:71-113 | every state sequence of length T scores at most the reported probability |
| Hmm.AlphaSumBounds | src/wasm/hmm.cpp:153-158 | the inner logSum is at least every flow summed into it, and -infinity exactly when every flow is |
| Hmm.Alpha | src/wasm/hmm.cpp:141-166 | alpha[t][j]: as delta at t = 0, afterwards the logSum of alpha[t-1][i] + log A[i][j] over all i, plus log B[j][o_t]; Hmm.AlphaSumBounds and Hmm.DeltaBelowAlpha state what it means |
| Hmm.AlphaRow | src/wasm/hmm.cpp:141-166 | row t of alpha has one cell per state |
| Hmm.ForwardOf | src/wasm/hmm.cpp:132-175 | no observations give -infinity and no lattice; otherwise T alpha rows, each the alpha recursion |
| Hmm.ForwardOfParts | src/wasm/hmm.cpp:168-174 | the alpha rows and the logSum of the last row together are the forward result |
| Hmm.ForwardTotalBounds | src/wasm/hmm.cpp:168-172 | the total is at least every alpha[T-1][s], and -infinity exactly when every one is |
| Hmm.DeltaBelowAlpha | src/wasm/hmm.cpp:82-101 | summing in log space never gives less than maximising: delta[t][s] <= alpha[t][s] |
| Hmm.ViterbiBelowForward | src/wasm/hmm.cpp:105-113 | the Viterbi probability never exceeds the forward total likelihood |
| Hmm.BetaSumBounds | src/wasm/hmm.cpp:189-196 | the inner logSum of backward is at least every continuation, and -infinity exactly when every one is |
| Hmm.Beta | src/wasm/hmm.cpp:179-198 | beta[t][i]: log 1 = 0 in the last row, before it the logSum of log A[i][j] + log B[j][o_t+1] + beta[t+1][j] over all j; Hmm.BetaAboveContinuations states what it means |
| Hmm.BetaRow | src/wasm/hmm.cpp:179-198 | row t of beta has one cell per state |
| Hmm.BetaAboveContinuations | src/wasm/hmm.cpp:187-198 | beta[t][i] is at least every continuation log A[i][j] + log B[j][o_t+1] + beta[t+1][j], and -infinity exactly when all are |
| Hmm.HiddenMarkovModel.constructor | src/wasm/hmm.cpp:41-46 | the sizes are stored and the three matrices are states x states, states x observations and states zeros |
| Hmm.HiddenMarkovModel.SetTransitionMatrix | src/wasm/hmm.cpp:48-50 | replaces the transition matrix and nothing else |
| Hmm.HiddenMarkovModel.SetEmissionMatrix | src/wasm/hmm.cpp:52-54 | replaces the emission matrix and nothing else |
| Hmm.HiddenMarkovModel.SetInitialProbabilities | src/wasm/hmm.cpp:56-58 | replaces the initial probabilities and nothing else |
| Hmm.HiddenMarkovModel.FirstRow | src/wasm/hmm.cpp:71-79 | the initialisation loop computes row 0 of delta, which is also row 0 of alpha |
| Hmm.HiddenMarkovModel.ViterbiStep | src/wasm/hmm.cpp:83-101 | one recursion step computes row t of delta and of psi from row t - 1 |
| Hmm.HiddenMarkovModel.Backtrack | src/wasm/hmm.cpp:116-121 | the descending loop fills the path with the backtracked states |
| Hmm.HiddenMarkovModel.ViterbiLattice | src/wasm/hmm.cpp:67-102 | the whole delta and psi lattices, T rows of numStates cells, equal the recursion |
| Hmm.HiddenMarkovModel.Viterbi | src/wasm/hmm.cpp:60-130 | viterbi returns exactly ViterbiOf of the current model and the observations |
| Hmm.HiddenMarkovModel.ForwardStep | src/wasm/hmm.cpp:152-165 | one recursion step computes row t of alpha from row t - 1 |
| Hmm.HiddenMarkovModel.Forward | src/wasm/hmm.cpp:132-175 | forward returns exactly ForwardOf of the current model and the observations |
| Hmm.HiddenMarkovModel.BackwardStep | src/wasm/hmm.cpp:188-197 | one recursion step computes row t of beta from row t + 1 |
| Hmm.HiddenMarkovModel.Backward | src/wasm/hmm.cpp:177-201 | backward returns T rows, row T-1 all log 1 = 0 and every row the beta recursion |
| Hmm.HiddenMarkovModel.CalculateLikelihood | src/wasm/hmm.cpp:203-206 | the forward total of the observations |
| Hmm.FlatModel | src/wasm/hmm.cpp:244-256 | the model over 256 symbols whose A[i][j] is transitions[i * N + j], B[i][j] is emissions[i * 256 + j] and pi the first N initial values |
| Hmm.Setup | src/wasm/hmm.cpp:241-260 | the constructor and the three setters leave a fresh decoder holding exactly that model |
| Hmm.ViterbiDecode | src/wasm/hmm.cpp:238-278 | obs_len states, each valid, equal to the Viterbi path of the first obs_len observations |
| Hmm.ForwardAlgorithm | src/wasm/hmm.cpp:281-314 | the forward total of the first obs_len observations, -infinity for none |
| Audio.Trunc | src/wasm/audio_processor.cpp:80 | static_cast<int> rounds toward zero |
| Audio.TruncMonotone | src/wasm/audio_processor.cpp:80 | truncation keeps the order of non-negative values |
| Audio.HammingOf | src/wasm/audio_processor.cpp:14-20 | the window has one value per sample; a one-sample window holds the stand-in for its 0 / 0 |
| Audio.HammingWindow | src/wasm/audio_processor.cpp:14-20 | the loop computes the window element by element |
| Audio.Windowed | src/wasm/audio_processor.cpp:125-129 | the windowed frame has the frame's length |
| Audio.DftOf | src/wasm/audio_processor.cpp:30-45 | the transform has one bin per input sample |
| Audio.Dft | src/wasm/audio_processor.cpp:30-45 | the quadratic loop computes every bin of the transform |
| Audio.Abs | src/wasm/audio_processor.cpp:50 | a magnitude is never negative for a sound sqrt |
| Audio.MagnitudesOf | src/wasm/audio_processor.cpp:47-53 | the magnitude spectrum has n / 2 entries, none negative |
| Audio.MagnitudeSpectrum | src/wasm/audio_processor.cpp:47-53 | getMagnitudeSpectrum returns n / 2 magnitudes of the lower bins |
| Audio.DctOf | src/wasm/audio_processor.cpp:104-117 | the DCT has one coefficient per input value |
| Audio.Dct | src/wasm/audio_processor.cpp:104-117 | the quadratic loop computes every coefficient |
| Audio.HzToMel | src/wasm/audio_processor.cpp:55-57 | 0 Hz is 0 mel and no non-negative frequency is negative in mel |
| Audio.MelToHz | src/wasm/audio_processor.cpp:59-61 | every non-negative mel value is a non-negative frequency |
| Audio.MelToHzMonotone | src/wasm/audio_processor.cpp:59-61 | melToHz keeps the order of non-negative mel values |
| Audio.ScaledMonotone | src/wasm/audio_processor.cpp:80 | scaling by nFFT over the sample rate keeps non-negative frequencies in order |
| Audio.FrequencyBinMonotone | src/wasm/audio_processor.cpp:80 | frequencies from 0 Hz fall in non-negative bins, in order |
| Audio.MelBins | src/wasm/audio_processor.cpp:64-81 | the three point loops give nFilters + 2 bin points |
| Audio.MelPointsAscend | src/wasm/audio_processor.cpp:64-71 | the mel points start at 0 and never decrease |
| Audio.BinPointsAscend | src/wasm/audio_processor.cpp:73-81 | each bin point is non-negative and they never decrease |
| Audio.MelBinsAscend | src/wasm/audio_processor.cpp:64-81 | all bin points of the bank are non-negative and non-decreasing |
| Audio.Weight | src/wasm/audio_processor.cpp:85-98 | every filter weight lies in [0, 1] |
| Audio.FilterRow | src/wasm/audio_processor.cpp:83-98 | each filter row has nFFT / 2 weights |
| Audio.FilterBank | src/wasm/audio_processor.cpp:83-98 | the bank has one row per filter, each of the given width |
| Audio.MelBank | src/wasm/audio_processor.cpp:63-102 | the bank has nFilters rows of nFFT / 2 weights |
| Audio.FilterSupport | src/wasm/audio_processor.cpp:85-98 | with ascending bin points, filter i - 1 is zero outside [bin[i-1], bin[i+1]) and 1 at bin[i] |
| Audio.AdjacentFiltersSumToOne | src/wasm/audio_processor.cpp:85-98 | where one filter falls and the next rises the two weights add up to 1 |
| Audio.MelBankShape | src/wasm/audio_processor.cpp:63-102 | every nonzero weight of row r lies between bin[r] and bin[r+2] |
| Audio.RisingEdge | src/wasm/audio_processor.cpp:86-91 | the first edge loop writes the rising ramp over [bin[i-1], bin[i]) below nFFT / 2 and zeros elsewhere |
| Audio.FallingEdge | src/wasm/audio_processor.cpp:93-98 | the second loop overwrites [bin[i], bin[i+1]) below nFFT / 2 with the falling ramp and keeps the rest |
| Audio.TriangularFilters | src/wasm/audio_processor.cpp:83-99 | the two edge loops over all filters produce the filter bank of the bin points |
| Audio.CreateMelFilterBank | src/wasm/audio_processor.cpp:63-102 | createMelFilterBank returns the mel filter bank |
| Audio.SumSquares | src/wasm/audio_processor.cpp:162-165 | the sum of squares is never negative |
| Audio.SumSquaresOfSilence | src/wasm/audio_processor.cpp:162-165 | the sum of squares of zeros is 0 |
| Audio.EnergyOf | src/wasm/audio_processor.cpp:161-167 | the RMS energy is never negative for a sound sqrt |
| Audio.SilenceHasNoEnergy | src/wasm/audio_processor.cpp:161-167 | an all-zero, non-empty frame has energy sqrt(0) = 0 |
| Audio.CalculateEnergy | src/wasm/audio_processor.cpp:161-167 | the loop computes sqrt of the mean square |
| Audio.Crossings | src/wasm/audio_processor.cpp:170-175 | at most n - 1 crossings among n samples |
| Audio.CrossingsCountsSignChanges | src/wasm/audio_processor.cpp:170-175 | the counter equals the number of indices i in [1, n) where (x[i] >= 0) != (x[i-1] >= 0) |
| Audio.OneSignNoCrossings | src/wasm/audio_processor.cpp:170-175 | a frame all >= 0 or all < 0 has no crossings |
| Audio.ZeroCrossingRateOf | src/wasm/audio_processor.cpp:169-177 | the zero-crossing rate of a non-empty frame: sign changes divided by the frame length; Audio.ZeroCrossingRateBounds bounds it |
| Audio.ZeroCrossingRateBounds | src/wasm/audio_processor.cpp:169-177 | the rate lies in [0, (n-1)/n] and is 0 for a frame on one side of zero |
| Audio.ZeroCrossingRate | src/wasm/audio_processor.cpp:169-177 | the loop computes crossings divided by n |
| Audio.CentroidOf | src/wasm/audio_processor.cpp:183-192 | a total magnitude that is not above 0 gives centroid 0 |
| Audio.BinFrequencyBelowNyquist | src/wasm/audio_processor.cpp:187 | every bin frequency lies in [0, sr/2] |
| Audio.WeightedTotalBounds | src/wasm/audio_processor.cpp:186-190 | for non-negative magnitudes the weighted sum lies in [0, sr/2 x total] |
| Audio.CentroidBelowNyquist | src/wasm/audio_processor.cpp:183-192 | for non-negative magnitudes the centroid lies in [0, sr/2] |
| Audio.SilentTotal | src/wasm/audio_processor.cpp:189 | a spectrum of zeros totals 0 |
| Audio.SilentSpectrumCentroid | src/wasm/audio_processor.cpp:192 | a spectrum of zeros has centroid 0 |
| Audio.FrameCentroidBelowNyquist | src/wasm/audio_processor.cpp:179-193 | the centroid of a frame lies in [0, sr/2] |
| Audio.WeightedMean | src/wasm/audio_processor.cpp:183-192 | the weighting loop computes the guarded weighted mean |
| Audio.SpectralCentroid | src/wasm/audio_processor.cpp:179-193 | calculateSpectralCentroid returns the centroid of the frame's magnitude spectrum |
| Audio.AutocorrOf | src/wasm/audio_processor.cpp:198-206 | one autocorrelation value per lag 0 .. n - 1 |
| Audio.LagZeroIsSumSquares | src/wasm/audio_processor.cpp:200-206 | the autocorrelation at lag 0 is the sum of squares |
| Audio.SilentLagSum | src/wasm/audio_processor.cpp:200-206 | silence has zero autocorrelation at every lag |
| Audio.Autocorrelation | src/wasm/audio_processor.cpp:198-206 | the nested loops compute autocorr[lag] = sum over i < n - lag of x[i] x[i + lag] |
| Audio.LagSearch | src/wasm/audio_processor.cpp:212-220 | the search result is (0, 0) or the first lag of the window with the largest correlation, which is above 0 and at least every other |
| Audio.PitchLagsNonNegative | src/wasm/audio_processor.cpp:209-210 | a non-empty lag window never starts below 0 |
| Audio.SearchLags | src/wasm/audio_processor.cpp:212-220 | the loop over lags minPeriod .. maxPeriod below n returns the search result |
| Audio.PeakLag | src/wasm/audio_processor.cpp:212-220 | the lag the peak search reports over lags minPeriod .. maxPeriod that lie below the frame length, or 0 when that window is empty; Audio.PitchPeriodIsFirstPeak states what it means |
| Audio.PitchPeriod | src/wasm/audio_processor.cpp:198-220 | the lag estimatePitch settles on: the peak lag of the frame's autocorrelation over lags sr/800 .. sr/80; Audio.PitchPeriodIsFirstPeak states what it means |
| Audio.PitchOf | src/wasm/audio_processor.cpp:222 | a lag of 0 gives pitch 0 |
| Audio.PitchPeriodIsFirstPeak | src/wasm/audio_processor.cpp:209-222 | a nonzero lag lies in [sr/800, sr/80] below n, has correlation above 0 and at least every lag of the window, and strictly more than every earlier one |
| Audio.SilenceHasNoPitch | src/wasm/audio_processor.cpp:195-223 | silence has pitch 0 |
| Audio.EstimatePitch | src/wasm/audio_processor.cpp:195-223 | estimatePitch returns sr / lag for the chosen lag, or 0 |
| Audio.LogEnergiesOf | src/wasm/audio_processor.cpp:140-147 | one log filter energy per filter |
| Audio.ApplyFilters | src/wasm/audio_processor.cpp:140-147 | the filter loop computes log(max(sum of magnitude x weight, 1e-10)) for every filter |
| Audio.CepstrumOf | src/wasm/audio_processor.cpp:120-150 | the DCT of the 26 log filter energies has 26 coefficients, for every frame length, 0 and 1 included |
| Audio.OneSampleCepstrum | src/wasm/audio_processor.cpp:47-53 | a one-sample frame keeps no spectrum bin, so all 26 filter energies are log(1e-10) and the coefficients are their DCT |
| Audio.OneSampleCepstrumIgnoresNan | src/wasm/audio_processor.cpp:14-20 | the coefficients of a one-sample frame do not depend on the value of the window's 0 / 0 |
| Audio.ExtractMfcc | src/wasm/audio_processor.cpp:120-159 | exactly nCoeffs values: the first min(nCoeffs, 26) cepstral coefficients, then zeros |
| Audio.FrameStartIsProduct | src/wasm/audio_processor.cpp:229 | frame k starts at sample k * hop |
| Audio.FrameCount | src/wasm/audio_processor.cpp:229 | the number of frames the framing loop cuts: 0 when the signal is shorter than a frame, else one per multiple of hop that leaves a whole frame; Audio.FramesFit and Audio.FrameCountOfStride state what it means |
| Audio.FramesFit | src/wasm/audio_processor.cpp:229 | every counted frame fits in the signal and the next one would not |
| Audio.FrameCountOfStride | src/wasm/audio_processor.cpp:229 | a loop that stops where the next frame would overrun has run FrameCount times |
| Audio.FeatureRow | src/wasm/audio_processor.cpp:236-248 | every feature row has 17 values |
| Audio.FrameFeatures | src/wasm/audio_processor.cpp:236-248 | the row is the 13 MFCCs followed by energy, zcr, centroid and pitch |
| Audio.CopyFrame | src/wasm/audio_processor.cpp:230-233 | frame sample j is audio[start + j] |
| Audio.FrameRows | src/wasm/audio_processor.cpp:229-251 | the rows of n frames are n rows |
| Audio.FrameRowsSnoc | src/wasm/audio_processor.cpp:250 | one more frame appends its row at the end |
| Audio.FrameRowsAt | src/wasm/audio_processor.cpp:279-282 | row k of the rows of a prefix of the signal is the row of frame k of the whole signal |
| Audio.FrameRow | src/wasm/audio_processor.cpp:230-248 | one pass of the loop body yields the row of frame k |
| Audio.ProcessAudioFrames | src/wasm/audio_processor.cpp:225-254 | floor((len - frameSize) / hop) + 1 rows when len >= frameSize, else none; row k is the row of samples k * hop .. k * hop + frameSize - 1 |
| Audio.ProcessAudioFeatures | src/wasm/audio_processor.cpp:275-296 | hop = frame_size / 2; frames x 17 values with feature c of frame k at k * 17 + c |
| Audio.ExtractMfccEntry | src/wasm/audio_processor.cpp:299-312 | num_coeffs values, the MFCCs of the first spectrum_len samples |

## Left out

- Floating-point rounding, NaN and overflow are not modelled. Doubles are reals with an explicit infinity.
- The values of the transcendental functions are parameters, not definitions: sqrt, log, exp, log10, pow, cos and sin. The Hamming window, DFT, DCT and mel conversions are modelled as loops around them.
- No spectral result (such as the centroid of a pure tone) is proved.
- The exact value of logSum and the forward/backward cross-check are not modelled. Both need identities of exp and log. Only these facts are used: -infinity is the identity, the two branches are symmetric, and logSum(a, b) >= max(a, b), which holds when log(1 + exp(x)) >= 0.
- hannWindow is not modelled; nothing in the kernels calls it.
- The EMSCRIPTEN_BINDINGS blocks and the malloc'd return buffers are not modelled: they are foreign glue and manual memory hand-off. Only which flat index holds which value is modelled.
- 32-bit int overflow in index arithmetic such as `i * feature_dim1 + j` and `i * 256 + j` is not modelled.
- The entry points read caller buffers through raw pointers with no size check. Reading past a buffer's end is undefined behaviour, so the model makes the lengths those reads need preconditions: `Dtw.BuffersFit`, `Hmm.BuffersFit` and the `dataLen`/`sampleLen` bounds.
- Dtw.BuffersFit: requires non-negative sequence lengths and dimension when the dimensions agree. In the source, a negative `seq1_len`, `seq2_len` or `feature_dim1` reaches the `std::vector` constructors at src/wasm/dtw.cpp:218-219 and 245-246, which throw `std::length_error`; exceptions are not modelled. This precondition is also on Dtw.ComputeDtwDistance and Dtw.ComputeNormalizedDtw. When the dimensions differ, those two return +infinity for any lengths, as the source does.
- Hmm.HiddenMarkovModel.constructor: requires states >= 0 and observations >= 0. In the source a negative size converts to a huge `size_t` in the `resize` calls at src/wasm/hmm.cpp:42-44, which throw `std::length_error`; exceptions are not modelled.
- Hmm.Setup: requires numStates >= 0. In the source a negative `num_states` throws `std::length_error` in the constructor and in the vector constructors at src/wasm/hmm.cpp:241-246.
- Hmm.BuffersFit: requires obsLen >= 0 and numStates >= 0. In the source a negative `obs_len` throws `std::length_error` at src/wasm/hmm.cpp:263, and a negative `num_states` throws as for Hmm.Setup. This precondition is also on Hmm.ViterbiDecode and Hmm.ForwardAlgorithm.
- Hmm.HiddenMarkovModel.Viterbi: requires numStates >= 1 when there are observations, because with no states the source indexes psi and delta out of bounds.
- Hmm.HiddenMarkovModel.Backward: requires T >= 1 and every symbol after the first below numObservations, because the source writes beta[T-1] and reads the emission row without a guard.
- Hmm.HiddenMarkovModel.FirstRow: requires non-negative symbols (`Symbols`), as do all HMM operations, because a negative symbol indexes the emission row out of bounds.
- Audio.ProcessAudioFrames: requires hop > 0 and frameSize >= 1. In the source, the excluded values behave as follows:
  - a hop of 0 or below never leaves the framing loop at src/wasm/audio_processor.cpp:229 once one frame fits;
  - frameSize 0 gives rows whose energy and zero-crossing rate are NaN, since lines 166 and 176 divide 0 by 0;
  - a negative frameSize throws `std::length_error` in the vector constructor at line 230.
  NaN and exceptions are not modelled. The same frameSize >= 1 is on Audio.FeatureRow, Audio.FrameFeatures, Audio.FrameRows and Audio.FrameRow.
- Audio.CreateMelFilterBank: requires a positive sample rate. In the source:
  - a rate of 0 makes line 80 compute 0 / 0 and cast it to int, which is undefined behaviour;
  - a rate at or below -1400 makes hzToMel (line 56) take log10 of a non-positive number, and the cast at line 80 of the resulting non-finite value is undefined behaviour;
  - a rate strictly between -1400 and 0 gives a well-defined filter bank, since the negative frequencies divided by the negative rate give bins in [0, nFFT / 2].
  The model does not cover that last range: its proof that the bin points are non-negative and ascending uses only the facts about log10 and 10^x from 1 and from 0 upward that `Sound` lists. The same positive rate is required by every member that builds the bank: Audio.ExtractMfcc, Audio.FrameFeatures, Audio.FrameRow, Audio.ProcessAudioFrames, Audio.ProcessAudioFeatures and Audio.ExtractMfccEntry.
- Audio.ProcessAudioFrames: requires a sound `Maths`, the facts about the transcendental functions that the proofs use.
- Audio.ExtractMfcc: requires nCoeffs >= 0, because a negative size throws `std::length_error` in the vector constructor at src/wasm/audio_processor.cpp:153. It also requires the positive sample rate of Audio.CreateMelFilterBank.
- Audio.ProcessAudioFeatures: requires frame_size >= 2. The hop is frame_size / 2 (src/wasm/audio_processor.cpp:280), so the excluded values behave as follows:
  - frame_size 0 gives a hop of 0, and the framing loop never ends;
  - frame_size 1 gives a hop of 0, and the loop never ends once data_len >= 1; with data_len 0 it returns no rows;
  - a negative frame_size throws `std::length_error` in the vector constructor at line 230.
  Non-termination and exceptions are not modelled.
- Audio.CalculateEnergy: requires a non-empty frame. For an empty frame, src/wasm/audio_processor.cpp:166 computes sqrt(0 / 0), which is NaN; NaN is not modelled. The same holds for Audio.EnergyOf.
- Audio.ZeroCrossingRate: requires a non-empty frame. For an empty frame, src/wasm/audio_processor.cpp:176 divides 0 by 0, which is NaN; NaN is not modelled. The same holds for Audio.ZeroCrossingRateOf.
- The C++ per-call helpers are split into named methods, each proved against its own specification function. The split follows the source's loops and adds no behaviour. Examples: FillCell, ViterbiStep, ForwardStep, BackwardStep, FirstRow, ArgMax, CopyFrame, FrameRow, WeightedMean, ApplyFilters, RisingEdge, FallingEdge, Autocorrelation and SearchLags.
- The lattices, and the vectors of the HMM and the feature extractor, are sequence values that the methods reassign, not arrays updated in place. The DTW tables are arrays.

## Findings

| source | as written | input that shows it | evidently intended | confidence | as-written member | corrected member |
|---|---|---|---|---|---|---|
| src/wasm/dtw.cpp:159-173 | the backtracking loop of computeConstrained has no case for the initial direction -1; when (n, m) lies outside the band the indices never move, so the loop never exits; each turn appends (i-1, j-1) to the path, so it runs until memory is exhausted | seq1 of 3 vectors, seq2 of 1 vector, windowSize 0: cell (3, 1) is never filled, its direction stays -1 and i, j stay at (3, 1) | return +infinity and an empty path when the final cell is unreachable, as for empty inputs | high, not executed | Dtw.BacktrackStallsOutsideBand | Dtw.DynamicTimeWarping.ComputeConstrained |
