# Spectrum sweep, stitching and peak detection — a verified model

This project models the acquisition pipeline of a PlutoSDR spectrum scanner in Dafny:

- **Sweep and stitch** (`src/utils/spectrum.py`). The receiver is stepped across a frequency range.
  - Each capture is turned into a segment: a linear frequency axis and a dB power spectrum, written into preallocated buffers.
  - Segments are gain-normalised by medians.
  - They are merged in order. A segment lying wholly above the spectrum so far is concatenated. Otherwise only its tail past a left-side `searchsorted` is appended.
  - The result is box-smoothed with `mode='same'`.
- **Adaptive peak detector and stepped scan** (`tests/scan_freq.py`, byte-identical to `tests/scan-freq.py`).
  - One capture is conditioned to the FFT size and given a DC-centred axis.
  - Interior bins are tested as window maxima above a floor, for prominence over two flanking bands, and for the receiver band.
  - The survivors are stably sorted by power and cut to a cap.
  - The scan steps center frequencies, recording `[]` for a failed capture. The counting part of the result analysis is modelled too.
- **Single-frequency processor** (`src/utils/spectrum_demo.py`). A stateful `SpectrumProcessor` holds a tuning, a frequency axis and scratch buffers.
  - It pads or truncates a capture to the FFT size.
  - It reports the shifted PSD in dBm with its first maximum.
  - It can be retuned.

Modules: `Signal` (shared values and sequence helpers), `Stitch`, `Sweep`, `PeakScan`, `SpectrumDemo`.

The floating-point numerics stay uninterpreted. The Hann window, the DFT, the complex magnitude, `log10` and numpy's division-by-zero value are fields of a `Numerics` value passed in. Powers and frequencies are `real`. Python's exceptions become `Result.Err` with the exception class. Hardware capture is a function parameter.

- Where the source loops or updates buffers, the model is a method: `ScanArrays`, `SpectrumProcessor`, the sweep loop, the stitch loop, the gain loop, the bin scan and the scan loop.
- Each such method is proved equal to a specification function.
- The properties are proved about that function.

## Model

| member | source | states |
|---|---|---|
| Signal.Trunc | tests/scan_freq.py:167 | `int()` truncates toward zero: r ≤ x < r + 1 for x ≥ 0, r − 1 < x ≤ r below 0 |
| Signal.Divide | src/utils/spectrum.py:183 | numpy division: for a nonzero divisor the quotient times the divisor is the dividend; zero gives an uninterpreted value, not an exception |
| Signal.PyRange | src/utils/spectrum.py:291 | `range(start, stop, step)`: element i is start + i·step, every element is before stop, and one more step reaches stop |
| Signal.RangeCount | src/utils/spectrum.py:291 | with step > 0 and end ≥ start, `range(start, end + 1, step)` has (end − start) // step + 1 elements |
| Signal.FitLength | src/utils/spectrum_demo.py:89-95 | exactly n samples, the capture's prefix kept, zeros after the capture's end |
| Signal.LinearAxis | src/utils/spectrum.py:124-126 | n entries, entry k being center − rate // 2 + k · rate / n, so consecutive entries are rate / n apart; for rate > 0 strictly increasing and below start + rate |
| Signal.FftShift | tests/scan_freq.py:140-141 | rotation by n // 2: position i ≥ n // 2 holds bin i − n // 2, position i < n // 2 holds bin i + n − n // 2 |
| Signal.FloorPower | src/utils/spectrum.py:120 | the clamp is at least 1e-12, equals x when x ≥ 1e-12 and 1e-12 otherwise |
| Stitch.FindOverlapRegions | src/utils/spectrum.py:140-142 | IndexError exactly when an axis is empty; otherwise index k of freq1 is listed iff freq2[0] ≤ freq1[k] ≤ freq2[-1], symmetrically for freq2, both lists ascending |
| Stitch.SortAscendingPermutes | src/utils/spectrum.py:179 | the sort inside the median is a permutation of the row |
| Stitch.SortAscendingSorted | src/utils/spectrum.py:179 | the sort inside the median is ascending |
| Stitch.MedianWithinRow | src/utils/spectrum.py:179-182 | the median lies between some value of the row and some other value of the row |
| Stitch.GainCorrections | src/utils/spectrum.py:178-185 | IndexError iff there are no rows; otherwise one entry per row, entry 0 is 1.0, and corr[i] · median(row i) = median(row 0) wherever median(row i) ≠ 0 |
| Stitch.CalculateGainCorrections | src/utils/spectrum.py:178-185 | the array filled by the loop is exactly GainCorrections |
| Stitch.GainCorrectionsEntries | src/utils/spectrum.py:181-183 | an array holding 1 at index 0 and median(row 0) / median(row i) elsewhere is GainCorrections |
| Stitch.BisectLeftFindsFirstAtLeast | src/utils/spectrum.py:225 | on a sorted axis numpy's bisection returns k with every earlier bin < x and every later bin ≥ x |
| Stitch.SearchSortedIsFirstAtLeast | src/utils/spectrum.py:225 | `searchsorted(side='left')` on a sorted axis is the first index whose bin is ≥ x |
| Stitch.SearchSortedLeft | src/utils/spectrum.py:225 | the bisection loop returns that first index |
| Stitch.MergeNextAppendsTail | src/utils/spectrum.py:220-228 | one merge appends next[k..] to the axis and the powers alike. k = 0 when the next axis starts above the current last bin, else the left insertion point, which on a sorted axis is the first bin ≥ the current last. Nothing is appended when k = len |
| Stitch.StitchPrefix | src/utils/spectrum.py:212-228 | after m segments, axis and powers have equal length, between len(segment 0) and the sum of the first m segment lengths; segment 0 is the verbatim prefix of both, with no gain applied |
| Stitch.StitchSegmentsWithOverlapHandling | src/utils/spectrum.py:212-230 | the accumulator loop computes StitchPrefix over all segments |
| Stitch.StitchProvenance | src/utils/spectrum.py:215-228 | every stitched (frequency, power) is bin j of some segment i: row 0 unscaled, row i ≥ 1 multiplied by gain_corrections[i] |
| Stitch.StitchNonDecreasing | src/utils/spectrum.py:220-228 | sorted segment axes stitch to a non-decreasing axis |
| Stitch.StitchStrictlyIncreasing | src/utils/spectrum.py:220-228 | strictly increasing segment axes stitch to a strictly increasing, duplicate-free axis when no segment holds the exact last frequency stitched before it |
| Stitch.StitchStrictlyIncreasingWithoutSharedBins | src/utils/spectrum.py:220-228 | in particular, strictly increasing segment axes that share no bin value stitch to a strictly increasing axis |
| Stitch.SharedBinIsRepeated | src/utils/spectrum.py:225-227 | axes [1, 2, 3] and [3, 4] stitch to [1, 2, 3, 3, 4]: a later bin equal to the current last frequency is kept twice |
| Stitch.SharedBinBelowLastIsDropped | src/utils/spectrum.py:225-227 | axes [1, 2, 3] and [2, 4] share 2 yet stitch to [1, 2, 3, 4]: a later bin below the current last frequency is dropped |
| Stitch.ApplyFinalSmoothing | src/utils/spectrum.py:233-242 | same length as the input; the input itself when its length is ≤ 2 · kernel_size |
| Stitch.SmoothingInteriorIsMean | src/utils/spectrum.py:240-241 | an interior smoothed bin is the mean of the kernel_size bins around it (k − h .. k + h for odd kernel 2h + 1) |
| Stitch.SmoothingKeepsFlatInterior | src/utils/spectrum.py:240-241 | wherever the whole window lies in a flat stretch at level c, the smoothed bin is c |
| Stitch.SmoothingAttenuatesFirstBin | src/utils/spectrum.py:241 | at the first bin the zeros beyond the edge are averaged in: a flat spectrum at c starts at c · ((m + 1) // 2) / m |
| Sweep.CentersWithinNumSteps | src/utils/spectrum.py:282-293 | for any nonzero step, `range(start, end + 1, step)` never has more than max(0, num_steps) centers, so the loop's break never fires |
| Sweep.CentersExact | src/utils/spectrum.py:282-291 | with step > 0 and end ≥ start the sweep visits exactly num_steps centers, the i-th being start + i · step ≤ end |
| Sweep.QuotientIsTrunc | src/utils/spectrum.py:282 | for d ≥ 0 and step > 0, `int(d / step)` equals d // step |
| Sweep.DefaultSweepHas26Segments | src/main.py:36-40 | 1.4 GHz to 1.9 GHz in 20 MHz steps gives num_steps = 26 and 26 centers |
| Sweep.BufferFill | src/utils/spectrum.py:107 | `iq_buffer[:] = samples[:n]`: a capture of ≥ n samples is cut to its first n, a single sample is broadcast, any other length is a ValueError |
| Sweep.ProcessSegment | src/utils/spectrum.py:69-128 | a missing capture raises TypeError and a bad length ValueError. Otherwise the segment has n bins and n powers. Its axis is `LinearAxis(center, rate, n)`: bin k is center − rate // 2 + k · rate / n, strictly increasing for rate > 0. Every power is 10·log10(p) for some p ≥ 1e-12 |
| Sweep.ScanArrays.constructor | src/utils/spectrum.py:57-65 | fft_size-long scratch buffers, a Hann window, and num_steps all-zero rows in both tables |
| Sweep.ScanArrays.CaptureAndProcessSegment | src/utils/spectrum.py:105-128 | through the buffers, the result is ProcessSegment; the psd buffer holds the returned powers and the row tables are untouched |
| Sweep.ScanArrays.FillBuffer | src/utils/spectrum.py:107 | the capture buffer holds the cut capture, or its single sample broadcast |
| Sweep.ScanArrays.ComputePowerSpectrum | src/utils/spectrum.py:110-119 | the psd buffer holds the normalised periodogram of the capture buffer |
| Sweep.ScanArrays.ConvertToDb | src/utils/spectrum.py:120-121 | the new psd array is 10·log10(max(p, 1e-12)) of the old one, bin by bin |
| Sweep.ScanArrays.StoreSegment | src/utils/spectrum.py:299-300 | row i of both tables is replaced and every other row is kept |
| Sweep.CollectSegments | src/utils/spectrum.py:291-300 | on success, one segment per visited center, segment i being the processing of capture i at center i |
| Sweep.CollectSegmentsOutcome | src/utils/spectrum.py:291-300 | the loop succeeds exactly when every visited capture processes; otherwise it fails with the error of the first capture that does not |
| Sweep.CollectFailurePersists | src/utils/spectrum.py:296 | once a capture fails, the sweep's outcome is that failure |
| Sweep.RowsWellFormed | src/utils/spectrum.py:306-313 | the preallocated rows handed on are non-empty, with axes of fft_size bins, and the gain computation on them succeeds |
| Sweep.StitchedSweep | src/utils/spectrum.py:277-326 | a zero step raises ZeroDivisionError, a negative num_steps ValueError, and num_steps = 0 IndexError. With num_steps ≥ 1 the sweep succeeds exactly when every visited capture processes, and otherwise raises the first failing capture's TypeError or ValueError. A result has equal-length arrays of between n and num_steps · n bins |
| Sweep.StitchRows | src/utils/spectrum.py:305-316 | the gain-corrected, stitched and smoothed rows have equal lengths, between n and num_steps · n bins, and begin with the first segment's axis |
| Sweep.StitchedShape | src/utils/spectrum.py:309-313 | stitching m rows of n bins gives between n and m · n bins and begins with row 0's axis |
| Sweep.SweepStartsWithFirstAxis | src/utils/spectrum.py:212 | a successful sweep begins with the axis start − rate // 2 + k · rate / n of its first center, unchanged |
| Sweep.InvertedRangeGivesZeroRow | src/utils/spectrum.py:282-313 | an end below start by less than a step gives num_steps = 1 but no center; the single all-zero preallocated row is stitched and smoothed |
| Sweep.SweepAndStitch | src/utils/spectrum.py:277-316 | the buffer-based sweep equals StitchedSweep |
| Sweep.CollectInto | src/utils/spectrum.py:291-300 | the loop fails exactly when CollectSegments does; otherwise the row tables hold the collected segments followed by zero rows |
| Sweep.StitchCollected | src/utils/spectrum.py:305-316 | gains, stitching and smoothing over the tables equal StitchRows |
| Sweep.ScanAndStitchSpectrum | src/utils/spectrum.py:266-326 | a failed connection or configuration returns empty arrays; otherwise the sweep's result, with its errors propagating |
| Sweep.ScanAndStitchSpectrumWithConnection | src/utils/spectrum.py:348-402 | no connection, or any error during the sweep, returns empty arrays; otherwise the sweep's spectrum |
| PeakScan.Conditioned | tests/scan_freq.py:105-115 | the conditioned samples are the first min(fft_size, len(samples)) samples |
| PeakScan.DefaultCaptureFillsFft | tests/scan_freq.py:29-50 | under the configured constants a capture of rx_buffer_size = 8192 samples is cut to fft_size = 2048, and the detection window is 20 bins |
| PeakScan.ShiftedAxisClosedForm | tests/scan_freq.py:138-140 | `fftshift(fftfreq(n, 1/rate)) + center` at position i is center + (i − n // 2) · rate / n |
| PeakScan.ShiftedAxisIncreasing | tests/scan_freq.py:138-140 | that axis is strictly increasing for rate > 0 |
| PeakScan.SeqMax | tests/scan_freq.py:159 | `np.max`: at least every element and equal to one of them |
| PeakScan.FlankMeanDefined | tests/scan_freq.py:161-164 | for w ≥ 1 the right flanking band contains bin i + w, so the mean is defined exactly when w ≥ 1 |
| PeakScan.PeakAtIff | tests/scan_freq.py:151-170 | bin i is reported iff it is ≥ the floor, ≥ every bin in [i − w, i + w], beats its flanking mean by the threshold and truncates to a frequency within bandwidth // 2 of the center; it is reported as (int(freqs[i]), power) |
| PeakScan.PlateauBinsBothPass | tests/scan_freq.py:159 | two equal neighbouring maxima are both reported: there is no tie-break |
| PeakScan.CandidatesSound | tests/scan_freq.py:150-170 | every candidate is the verdict of some examined bin |
| PeakScan.CandidatesComplete | tests/scan_freq.py:150-170 | every examined bin that passes contributes its peak |
| PeakScan.SortByPowerPermutes | tests/scan_freq.py:173 | the sort is a permutation |
| PeakScan.SortByPowerSorted | tests/scan_freq.py:173 | the sorted list has non-increasing power |
| PeakScan.SortByPowerStable | tests/scan_freq.py:173 | the sort is stable: peaks of equal power keep their order |
| PeakScan.Take | tests/scan_freq.py:174 | `peaks[:cap]` is a prefix of min(cap, len) peaks |
| PeakScan.DetectOn | tests/scan_freq.py:143-174 | the report has at most max_peaks_per_band peaks, in non-increasing power |
| PeakScan.DetectOnSound | tests/scan_freq.py:145-174 | every reported peak is the verdict of a passing bin of `range(w, n − w)`, w = max(min_window_size, n // divisor) |
| PeakScan.DetectOnComplete | tests/scan_freq.py:145-174 | a passing bin's peak is missing only when the report is full of peaks at least as strong |
| PeakScan.DetectOnStable | tests/scan_freq.py:173-174 | among peaks of one power, the report is a prefix of the candidates in ascending bin order |
| PeakScan.DetectPeaks | tests/scan_freq.py:101-174 | [] for no samples; ZeroDivisionError exactly when there are samples and the rate is 0; otherwise at most the cap, strongest first |
| PeakScan.DetectPeaksInSpectrum | tests/scan_freq.py:101-174 | the imperative detector equals DetectPeaks, and its zero-pad branch is unreachable |
| PeakScan.ScanBins | tests/scan_freq.py:144-170 | the loop over `range(w, n − w)` appends exactly the candidates in bin order |
| PeakScan.TestBin | tests/scan_freq.py:151-170 | the loop body's tests give the bin's verdict |
| PeakScan.PeakDetector | tests/scan-freq.py:215-217 | the detector as the scan calls it never returns more than max_peaks_per_band peaks and raises only for samples at rate 0 |
| PeakScan.Record | tests/scan_freq.py:219 | `scan_results[c] = peaks`: c maps to the new list; a new key is appended to the insertion order and an existing key keeps its place |
| PeakScan.RecordKeepsDict | tests/scan_freq.py:219 | recording keeps the keys distinct and exactly the mapped ones |
| PeakScan.ScanPrefixIsDict | tests/scan-freq.py:203-233 | the scan's results are always a well-formed dict |
| PeakScan.ScanPrefixCenters | tests/scan-freq.py:203-233 | over distinct centers, the recorded centers are a prefix of the centers to visit; unless stopped by an exception, the scan after k centers has recorded exactly the first k centers |
| PeakScan.ScanPrefixCapped | tests/scan-freq.py:203-233 | no recorded list is longer than the detector's cap |
| PeakScan.ScanPrefixShape | tests/scan-freq.py:203-233 | over distinct centers, the recorded centers are a prefix of the centers to visit, the results are a well-formed dict, and no list exceeds the cap |
| PeakScan.ScanCenters | tests/scan-freq.py:192-233 | the i-th visited center is start + i · step ≤ end |
| PeakScan.ScanCentersIncreasing | tests/scan-freq.py:233 | the visited centers strictly increase |
| PeakScan.ScanCentersNext | tests/scan-freq.py:203-233 | consecutive centers are one step apart, and one step past the last is past the end |
| PeakScan.ScanCentersCount | tests/scan-freq.py:203-233 | with end ≥ start there are (end − start) // step + 1 centers |
| PeakScan.CenterCountFor | tests/scan-freq.py:203-233 | a span of exactly q steps gives q + 1 centers, the last one at end |
| PeakScan.DefaultScanHas26Centers | tests/scan_freq.py:35-40 | the configured scan, 1.4 GHz to 1.9 GHz in 20 MHz steps, visits 26 centers, the last one at 1.9 GHz |
| PeakScan.EnhancedScan | tests/scan-freq.py:187-189 | not connected gives {} |
| PeakScan.EnhancedScanShape | tests/scan-freq.py:191-240 | the results are a well-formed dict whose keys are visited centers in ascending order, each with a list within the cap |
| PeakScan.EnhancedFrequencyScan | tests/scan-freq.py:177-240 | the while loop over current_freq computes EnhancedScan |
| PeakScan.ScanOnce | tests/scan-freq.py:205-231 | one pass: an exception stops with the results so far, a failed capture records [], a capture records the detector's peaks |
| PeakScan.StoppedScanStaysStopped | tests/scan-freq.py:235-238 | after an exception, later centers change nothing |
| PeakScan.UninterruptedStep | tests/scan-freq.py:213-231 | a pass without an exception records the center and continues |
| PeakScan.UninterruptedScanCoversAllCenters | tests/scan-freq.py:203-233 | connected, at a nonzero rate and never interrupted, every center is recorded in ascending order with the detector's peaks, or [] for a failed capture |
| PeakScan.FailedCapturesRecordEmptyLists | tests/scan-freq.py:229-231 | when every capture fails, every center is still recorded, with [] |
| PeakScan.CountNonEmptyBounds | tests/scan-freq.py:254-256 | centers with peaks never outnumber centers, and equal them iff every list is non-empty |
| PeakScan.FlattenMembers | tests/scan-freq.py:257 | a peak is in all_peaks iff it is in one of the recorded lists |
| PeakScan.FlattenLength | tests/scan-freq.py:257 | lists of at most b peaks concatenate to at most len · b peaks |
| PeakScan.AnalyzeScanResults | tests/scan-freq.py:243-257 | for a well-formed dict: an empty dict gives nothing; otherwise the number of centers, the number with peaks and the concatenation of the lists in insertion order |
| PeakScan.ScanSummaryBounds | tests/scan-freq.py:250-257 | on a scan's own results, centers with peaks ≤ centers and all_peaks ≤ centers · max_peaks_per_band |
| SpectrumDemo.DemoSpectrum | src/utils/spectrum_demo.py:138-160 | n bins; bin k is the dB periodogram of the fitted capture at transform bin (k + n − n // 2) % n plus the dBm offset |
| SpectrumDemo.DemoIsShiftedSegmentInDbm | src/utils/spectrum_demo.py:144-160 | for an exact-length capture, the processor's PSD is the sweep segment's PSD of that capture, shifted and raised by 30 − 10·log10(50) |
| SpectrumDemo.LongCaptureUsesPrefix | src/utils/spectrum_demo.py:89-90 | samples past fft_size are ignored |
| SpectrumDemo.ShortCaptureIsZeroPadded | src/utils/spectrum_demo.py:91-95 | a short capture is zero-padded at the tail: appending a zero sample changes nothing |
| SpectrumDemo.FlooredBinsReadTheFloor | src/utils/spectrum_demo.py:159-160 | every bin at or below 1e-12 reads 10·log10(1e-12) + offset |
| SpectrumDemo.FirstArgMax | src/utils/spectrum_demo.py:163 | `argmax`: an index whose value is ≥ every value and > every earlier value |
| SpectrumDemo.CopyOf | src/utils/spectrum_demo.py:166 | `copy()`: a fresh array with the same contents |
| SpectrumDemo.SpectrumProcessor.constructor | src/utils/spectrum_demo.py:33-76 | stores the size, rate and center; the axis is center − rate // 2 + k · rate / n with fft_size entries; Hann window and zeroed buffers |
| SpectrumDemo.SpectrumProcessor.ProcessFft | src/utils/spectrum_demo.py:78-166 | fresh copies of the axis and of the dBm PSD, which is DemoSpectrum of the capture; peak_rssi is the PSD at its first maximum; the tuning is unchanged |
| SpectrumDemo.SpectrumProcessor.ComputePsd | src/utils/spectrum_demo.py:88-160 | the psd field becomes DemoSpectrum of the capture |
| SpectrumDemo.SpectrumProcessor.TransformInto | src/utils/spectrum_demo.py:141-147 | the FFT buffer holds the transform of the windowed samples |
| SpectrumDemo.SpectrumProcessor.ShiftSpectrum | src/utils/spectrum_demo.py:150 | a fresh FFT array whose bin i is old bin (i + n − n // 2) % n |
| SpectrumDemo.SpectrumProcessor.PowerInto | src/utils/spectrum_demo.py:153-156 | the psd buffer holds the periodogram in shifted order |
| SpectrumDemo.SpectrumProcessor.ToDbm | src/utils/spectrum_demo.py:159-160 | every bin becomes 10·log10(max(p, 1e-12)) + 30 − 10·log10(50) |
| SpectrumDemo.SpectrumProcessor.GetFrequencyRange | src/utils/spectrum_demo.py:168-170 | (center − rate // 2, that plus (n − 1) · rate / n), ordered and below start + rate for rate > 0 |
| SpectrumDemo.SpectrumProcessor.GetCenterFrequency | src/utils/spectrum_demo.py:172-174 | the last center set, never below the axis' first entry for a non-negative rate |
| SpectrumDemo.SpectrumProcessor.SetCenterFrequency | src/utils/spectrum_demo.py:176-184 | the new center and a fresh axis around it; size, rate and buffers untouched |
| SpectrumDemo.ProcessThenRetune | src/utils/spectrum_demo.py:164-181 | a result taken before a retune keeps the old axis and its PSD; only the processor's own axis moves |

## Left out

- FFT, Hann window, complex magnitude and `log10` are uninterpreted functions in `Numerics`. So are the floating-point rounding of float32 and complex64 buffers, and inf/nan (numpy's value for division by zero is `divideByZero`; an empty `np.mean` is `None`).
- The CuPy/GPU branches and CUDA probing in all three files. They repeat the CPU logic through a foreign library. `_process_fft_gpu` is not modelled.
- `align_segments_with_correlation` is never called and is correlation numerics.
- `calculate_distance` is a floating-point power of ten.
- `initialize_gpu_memory_pools` is left out, and so is the GPU variant of `preallocate_arrays`.
- Hardware and I/O are parameters:
  - the connect/configure results are booleans;
  - captures are functions of (iteration, center);
  - `pluto.get_sample_rate()` and `rx_rf_bandwidth` are the `rate` and `bandwidth` parameters.
- The following are left out: `time.sleep` dwells, printing, the display-only parts of `analyze_scan_results` (ranking, range grouping), `main`, the FastAPI servers and scripts.
- A capture exception and a `KeyboardInterrupt` in the stepped scan are both the `Raised` outcome, which stops the scan with the results so far.
- PeakScan.ValidFftConfig: the detector is modelled only for a positive FFT size and window divisor and a non-negative cap. The source would raise on a zero divisor, and a negative cap slices from the end.
- PeakScan.EnhancedScan: requires a positive scan step. A non-positive step makes the source loop forever or never start.
- SpectrumDemo.SpectrumProcessor.constructor: requires fft_size > 0. The source divides by it.
- Sweep.ProcessSegment: states that each dB power is 10·log10 of some value ≥ 1e-12, not which periodogram value. The periodogram is stated by ComputePowerSpectrum and ConvertToDb.
- Sweep.ProcessSegment: requires a positive FFT size n. With n = 0 numpy's FFT raises ValueError, which is not modelled.
- Sweep.ScanArrays.CaptureAndProcessSegment: requires a positive FFT size, for the same reason.
- Sweep.CollectSegments: requires a positive FFT size, for the same reason.
- Sweep.StitchedSweep: requires a positive FFT size, for the same reason.
- Sweep.StitchRows: requires a positive FFT size, for the same reason.
- Sweep.SweepAndStitch: requires a positive FFT size, for the same reason.
- Sweep.CollectInto: requires a positive FFT size, for the same reason.
- Sweep.StitchCollected: requires a positive FFT size, for the same reason.
- Sweep.ScanAndStitchSpectrum: requires a positive FFT size, for the same reason.
- Sweep.ScanAndStitchSpectrumWithConnection: requires a positive FFT size, for the same reason.
- Sweep.StitchedSweep: a row count from `int()` of a quotient is modelled for exact reals. float64 rounding of `(end − start) / step` is not modelled.
- `numpy.sort` and Python's `list.sort` are modelled as insertion sorts, specified by permutation, order and stability rather than by their algorithm.

### Behaviour as written, where it differs from the repository's own description

- The stitched axis can repeat a bin. The left-side `searchsorted` keeps a later bin equal to the current last frequency (`Stitch.SharedBinIsRepeated`). A shared bin below that last frequency is dropped instead (`Stitch.SharedBinBelowLastIsDropped`). The axis is strictly increasing when no segment holds the exact last frequency stitched before it (`Stitch.StitchStrictlyIncreasing`), in particular when segments share no bin value.
- `mode='same'` smoothing averages zeros in at the edges rather than keeping the edge values (`Stitch.SmoothingAttenuatesFirstBin`).
- Equal neighbouring window maxima are all reported. There is no earlier-index tie-break (`PeakScan.PlateauBinsBothPass`).
- Gain corrections are ratios of dB medians applied by multiplication to dB values. The model follows that arithmetic.
- A failed capture in `spectrum.py` is not skipped:
  - `scan_and_stitch_spectrum` propagates the exception;
  - `..._with_connection` returns empty arrays for the whole sweep.
- An end below start by less than one step still gives one preallocated, all-zero row, which is stitched (`Sweep.InvertedRangeGivesZeroRow`).
- The stitched length is at least the first segment's length (`Stitch.StitchPrefix`).
- The detector's zero-pad branch can never run, since its FFT size is never above the sample count.
