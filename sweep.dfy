/** The sweep driver of src/utils/spectrum.py: the preallocated buffers, the
    per-segment capture-and-process step, the loop over center frequencies and
    the two entry points that stitch the whole sweep. */
module Sweep {
  import opened Signal
  import opened Stitch

  // ---------------------------------------------------------------------------
  // Step arithmetic

  /** `int((end - start) / step) + 1`: true division truncated toward zero. */
  function NumSteps(cfg: ScanConfig): int
    requires cfg.step != 0
  {
    Trunc((cfg.end - cfg.start) as real / cfg.step as real) + 1
  }

  /** The centers the sweep visits: `range(start, end + 1, step)`. */
  function Centers(cfg: ScanConfig): seq<int>
    requires cfg.step != 0
  {
    PyRange(cfg.start, cfg.end + 1, cfg.step)
  }

  /** The loop's `if i >= num_steps: break` never fires: the range never has more
      than num_steps centers, whatever the sign of the step. */
  lemma CentersWithinNumSteps(cfg: ScanConfig)
    requires cfg.step != 0
    ensures |Centers(cfg)| <= Max(0, NumSteps(cfg))
  {
    var c := Centers(cfg);
    var l := |c|;
    if l > 0 {
      var x := (cfg.end - cfg.start) as real / cfg.step as real;
      LastIndexBelowQuotient(cfg);
      assert l - 1 <= Trunc(x);
    }
  }

  /** The last center's index is at most (end - start) / step. */
  lemma LastIndexBelowQuotient(cfg: ScanConfig)
    requires cfg.step != 0 && |Centers(cfg)| > 0
    ensures (|Centers(cfg)| - 1) as real <= (cfg.end - cfg.start) as real / cfg.step as real
  {
    var l := |Centers(cfg)|;
    assert Centers(cfg)[l - 1] == cfg.start + (l - 1) * cfg.step;
    IndexBelowQuotient(l - 1, cfg.start, cfg.end, cfg.step);
  }

  /** An index whose point start + i * step has not passed end is at most
      (end - start) / step, for either sign of step. */
  lemma IndexBelowQuotient(i: nat, start: int, end: int, step: int)
    requires step != 0
    requires step > 0 ==> start + i * step <= end
    requires step < 0 ==> start + i * step >= end
    ensures i as real <= (end - start) as real / step as real
  {
    if step > 0 {
      BelowQuotient(i, step, end - start);
    } else {
      assert i * (-step) <= start - end;
      BelowQuotient(i, -step, start - end);
      assert (end - start) as real / step as real == (start - end) as real / (-step) as real;
    }
  }

  lemma BelowQuotient(q: nat, d: int, a: int)
    requires d > 0 && q * d <= a
    ensures q as real <= a as real / d as real
  {
    assert (q * d) as real == q as real * d as real;
  }

  /** With a positive step and end >= start the sweep visits exactly num_steps centers,
      the i-th being start + i * step, all at most end. */
  lemma CentersExact(cfg: ScanConfig)
    requires cfg.step > 0 && cfg.end >= cfg.start
    ensures |Centers(cfg)| == NumSteps(cfg)
    ensures forall i :: 0 <= i < |Centers(cfg)| ==> Centers(cfg)[i] == cfg.start + i * cfg.step <= cfg.end
  {
    var d := cfg.end - cfg.start;
    CentersWithinNumSteps(cfg);
    QuotientIsTrunc(d, cfg.step);
    AboveQuotient(|Centers(cfg)|, cfg.step, d);
  }

  /** A count whose multiple by step exceeds d is more than d / step. */
  lemma AboveQuotient(l: int, step: int, d: int)
    requires step > 0 && d >= 0 && l * step > d
    ensures l >= d / step + 1
  {
    var q := d / step;
    if l <= q {
      MulMono(l, q, step);
    }
  }

  /** For d >= 0 and step > 0, truncating the true quotient gives the Euclidean quotient. */
  lemma QuotientIsTrunc(d: int, step: int)
    requires d >= 0 && step > 0
    ensures Trunc(d as real / step as real) == d / step
  {
    var q := d / step;
    DivBounds(d, step);
    BelowQuotient(q, step, d);
    StrictlyBelowQuotient(q + 1, step, d);
  }

  lemma StrictlyBelowQuotient(q: int, d: int, a: int)
    requires d > 0 && a < q * d
    ensures a as real / d as real < q as real
  {
    assert (q * d) as real == q as real * d as real;
  }

  /** The default sweep, 1.4 GHz to 1.9 GHz in 20 MHz steps, has 26 segments. */
  lemma DefaultSweepHas26Segments()
    ensures NumSteps(DefaultScanConfig) == 26
    ensures |Centers(DefaultScanConfig)| == 26
  {
    QuotientIsTrunc(500000000, 20000000);
    CentersExact(DefaultScanConfig);
  }

  // ---------------------------------------------------------------------------
  // capture_and_process_segment

  /** `iq_buffer[:] = iq_samples[:n]`: an exact-length capture is copied, a single
      sample is broadcast, any other length raises ValueError. */
  function BufferFill(captured: seq<Complex>, n: nat): (r: Result<seq<Complex>>)
    ensures r.Ok? <==> |captured| >= n || |captured| == 1
    ensures r.Ok? ==> |r.value| == n
    ensures r.Ok? && |captured| >= n ==> r.value == captured[..n]
    ensures r.Ok? && |captured| < n ==> forall k :: 0 <= k < n ==> r.value[k] == captured[0]
  {
    var cut := captured[..Min(n, |captured|)];
    if |cut| == n then Ok(cut)
    else if |cut| == 1 then Ok(seq(n, _ => cut[0]))
    else Err(ValueError)
  }

  /** One segment: a capture of None raises TypeError; otherwise the buffer fill, the
      dB periodogram clamped at 1e-12, and the linear axis around the center. */
  function ProcessSegment(num: Numerics, captured: Option<seq<Complex>>, center: int, rate: int, n: nat): (r: Result<Spectrum>)
    requires n > 0
    ensures r.Ok? <==> captured.Some? && (|captured.value| >= n || |captured.value| == 1)
    ensures captured.None? ==> r == Err(TypeError)
    ensures r.Err? && captured.Some? ==> r == Err(ValueError)
    ensures r.Ok? ==> |r.value.freqs| == n && |r.value.psd| == n
    ensures r.Ok? ==> r.value.freqs == LinearAxis(center, rate, n)
    ensures r.Ok? && rate > 0 ==> StrictlyIncreasing(r.value.freqs)
    ensures r.Ok? ==> forall k :: 0 <= k < n ==>
      exists p: real :: p >= 0.000000000001 && r.value.psd[k] == 10.0 * num.log10(p)
  {
    if captured.None? then Err(TypeError)
    else match BufferFill(captured.value, n)
      case Err(e) => Err(e)
      case Ok(iq) =>
        var power := Periodogram(num, iq, rate);
        var psd := PowerDbAll(num, power);
        assert forall k :: 0 <= k < n ==> psd[k] == 10.0 * num.log10(FloorPower(power[k]));
        Ok(Spectrum(LinearAxis(center, rate, n), psd))
  }

  /** The preallocated working set of one sweep (`preallocate_arrays`, CPU variant). */
  class ScanArrays {
    const num: Numerics
    const fftSize: nat
    const numSteps: nat
    const iqBuffer: array<Complex>
    const windowed: array<Complex>
    const fftResult: array<Complex>
    const window: array<real>
    const segments: array<seq<real>>
    const freqArrays: array<seq<real>>
    /** Rebound to a fresh array by the clamp and the dB conversion. */
    var psd: array<real>

    ghost predicate Valid()
      reads this, window
    {
      && iqBuffer.Length == fftSize && windowed.Length == fftSize && fftResult.Length == fftSize
      && window.Length == fftSize && psd.Length == fftSize
      && segments.Length == numSteps && freqArrays.Length == numSteps
      && iqBuffer != windowed && iqBuffer != fftResult && windowed != fftResult
      && psd != window && segments != freqArrays
      && window[..] == HannWindow(num, fftSize)
    }

    constructor (num: Numerics, numSteps: nat, fftSize: nat)
      ensures Valid()
      ensures this.num == num && this.numSteps == numSteps && this.fftSize == fftSize
      ensures segments[..] == seq(numSteps, _ => Zeros(fftSize))
      ensures freqArrays[..] == seq(numSteps, _ => Zeros(fftSize))
      ensures fresh(iqBuffer) && fresh(windowed) && fresh(fftResult) && fresh(window)
      ensures fresh(psd) && fresh(segments) && fresh(freqArrays)
    {
      this.num := num;
      this.numSteps := numSteps;
      this.fftSize := fftSize;
      iqBuffer := new Complex[fftSize](_ => ZeroSample);
      windowed := new Complex[fftSize](_ => ZeroSample);
      fftResult := new Complex[fftSize](_ => ZeroSample);
      psd := new real[fftSize](_ => 0.0);
      segments := new seq<real>[numSteps](_ => Zeros(fftSize));
      freqArrays := new seq<real>[numSteps](_ => Zeros(fftSize));
      window := new real[fftSize](k => num.hann(k, fftSize));
    }

    /** Fill the scratch buffers from one capture and return the segment's axis and dB power. */
    method CaptureAndProcessSegment(captured: Option<seq<Complex>>, center: int, rate: int)
      returns (r: Result<Spectrum>)
      requires Valid() && fftSize > 0
      modifies this, iqBuffer, windowed, fftResult, psd
      ensures Valid()
      ensures r == ProcessSegment(num, captured, center, rate, fftSize)
      ensures r.Ok? ==> fresh(psd) && psd[..] == r.value.psd
      ensures psd == old(psd) || fresh(psd)
      ensures unchanged(segments) && unchanged(freqArrays)
    {
      if captured.None? {
        return Err(TypeError);
      }
      var cut := captured.value[..Min(fftSize, |captured.value|)];
      if |cut| != fftSize && |cut| != 1 {
        return Err(ValueError);
      }
      FillBuffer(cut);
      ghost var iq := BufferFill(captured.value, fftSize).value;
      assert iqBuffer[..] == iq;
      ComputePowerSpectrum(rate);
      ConvertToDb();
      var freqs := LinearAxis(center, rate, fftSize);
      r := Ok(Spectrum(freqs, psd[..]));
    }

    /** `iq_buffer[:] = cut`: a copy, or a broadcast of a single sample. */
    method FillBuffer(cut: seq<Complex>)
      requires Valid() && (|cut| == fftSize || |cut| == 1)
      modifies iqBuffer
      ensures |cut| == fftSize ==> iqBuffer[..] == cut
      ensures |cut| != fftSize ==> iqBuffer[..] == seq(fftSize, _ => cut[0])
    {
      if |cut| == fftSize {
        forall k | 0 <= k < fftSize {
          iqBuffer[k] := cut[k];
        }
      } else {
        forall k | 0 <= k < fftSize {
          iqBuffer[k] := cut[0];
        }
      }
    }

    /** Window, transform, square the magnitude and normalise, into the psd buffer. */
    method ComputePowerSpectrum(rate: int)
      requires Valid()
      modifies windowed, fftResult, psd
      ensures psd[..] == Periodogram(num, iqBuffer[..], rate)
    {
      ghost var iq := iqBuffer[..];
      forall k | 0 <= k < fftSize {
        windowed[k] := Scaled(iqBuffer[k], window[k]);
      }
      var x := windowed[..];
      assert x == Windowed(num, iq);
      forall k | 0 <= k < fftSize {
        fftResult[k] := num.dft(x, k);
      }
      forall k | 0 <= k < fftSize {
        psd[k] := SquaredMagnitude(num, fftResult[k]);
      }
      ghost var squared := psd[..];
      assert forall k :: 0 <= k < fftSize ==> squared[k] == SquaredMagnitude(num, num.dft(Windowed(num, iq), k));
      assert window[..] == HannWindow(num, |iq|);
      var norm := rate as real * Sum(window[..]);
      assert norm == PsdScale(num, |iq|, rate);
      forall k | 0 <= k < fftSize {
        psd[k] := Divide(num, psd[k], norm);
      }
      forall k | 0 <= k < fftSize ensures psd[k] == Periodogram(num, iq, rate)[k] {
        PeriodogramBin(num, iq, rate, k);
      }
      assert psd[..] == Periodogram(num, iq, rate);
      assert iqBuffer[..] == iq;
    }

    /** `psd = maximum(psd, 1e-12)` then `psd = 10 * log10(psd)`, each binding a new array. */
    method ConvertToDb()
      requires Valid()
      modifies this
      ensures Valid() && fresh(psd)
      ensures psd[..] == PowerDbAll(num, old(psd[..]))
    {
      var clamped := new real[fftSize];
      forall k | 0 <= k < fftSize {
        clamped[k] := FloorPower(psd[k]);
      }
      psd := clamped;
      var db := new real[fftSize];
      forall k | 0 <= k < fftSize {
        db[k] := 10.0 * num.log10(psd[k]);
      }
      psd := db;
      assert psd[..] == PowerDbAll(num, old(psd[..]));
    }

    /** `segments[i] = psd; freq_arrays[i] = freqs`: row i of both tables and nothing else. */
    method StoreSegment(i: nat, seg: Spectrum)
      requires Valid() && i < numSteps
      modifies segments, freqArrays
      ensures Valid()
      ensures segments[..] == old(segments[..])[i := seg.psd]
      ensures freqArrays[..] == old(freqArrays[..])[i := seg.freqs]
    {
      segments[i] := seg.psd;
      freqArrays[i] := seg.freqs;
    }
  }

  // ---------------------------------------------------------------------------
  // The sweep loop

  /** The segments of the first `count` centers, or the first failure. The capture at
      iteration i for center c is `capture(i, c)`. */
  function CollectSegments(num: Numerics, capture: (nat, int) -> Option<seq<Complex>>, centers: seq<int>,
                           rate: int, n: nat, count: nat): (r: Result<seq<Spectrum>>)
    requires n > 0 && count <= |centers|
    ensures r.Ok? ==> |r.value| == count
    ensures r.Ok? ==> forall i :: 0 <= i < count ==>
      Ok(r.value[i]) == ProcessSegment(num, capture(i, centers[i]), centers[i], rate, n)
  {
    if count == 0 then Ok([])
    else match CollectSegments(num, capture, centers, rate, n, count - 1)
      case Err(e) => Err(e)
      case Ok(prev) =>
        match ProcessSegment(num, capture(count - 1, centers[count - 1]), centers[count - 1], rate, n)
        case Err(e) => Err(e)
        case Ok(seg) => Ok(prev + [seg])
  }

  /** The sweep succeeds exactly when every visited capture processes, and otherwise fails
      with the error of the first one that does not. */
  lemma {:induction false} CollectSegmentsOutcome(num: Numerics, capture: (nat, int) -> Option<seq<Complex>>,
                                                  centers: seq<int>, rate: int, n: nat, count: nat)
    requires n > 0 && count <= |centers|
    ensures CollectSegments(num, capture, centers, rate, n, count).Ok? <==>
      forall i :: 0 <= i < count ==> ProcessSegment(num, capture(i, centers[i]), centers[i], rate, n).Ok?
    ensures CollectSegments(num, capture, centers, rate, n, count).Err? ==>
      exists j :: 0 <= j < count &&
        FirstFailure(num, capture, centers, rate, n, j, CollectSegments(num, capture, centers, rate, n, count).error)
  {
    if count > 0 {
      CollectSegmentsOutcome(num, capture, centers, rate, n, count - 1);
      var last := ProcessSegment(num, capture(count - 1, centers[count - 1]), centers[count - 1], rate, n);
      if CollectSegments(num, capture, centers, rate, n, count - 1).Ok? && last.Err? {
        assert FirstFailure(num, capture, centers, rate, n, count - 1, last.error);
      }
    }
  }

  /** Segment j is the first of the sweep whose capture does not process, and it fails with e. */
  ghost predicate FirstFailure(num: Numerics, capture: (nat, int) -> Option<seq<Complex>>, centers: seq<int>,
                               rate: int, n: nat, j: nat, e: Error)
    requires n > 0 && j < |centers|
  {
    && ProcessSegment(num, capture(j, centers[j]), centers[j], rate, n) == Err(e)
    && forall i :: 0 <= i < j ==> ProcessSegment(num, capture(i, centers[i]), centers[i], rate, n).Ok?
  }

  /** The numSteps preallocated rows after the loop: the filled ones, then all-zero rows. */
  function PsdRows(segs: seq<Spectrum>, numSteps: nat, n: nat): (r: seq<seq<real>>)
    ensures |r| == numSteps
  {
    seq(numSteps, i requires 0 <= i < numSteps => if i < |segs| then segs[i].psd else Zeros(n))
  }

  function FreqRows(segs: seq<Spectrum>, numSteps: nat, n: nat): (r: seq<seq<real>>)
    ensures |r| == numSteps
  {
    seq(numSteps, i requires 0 <= i < numSteps => if i < |segs| then segs[i].freqs else Zeros(n))
  }

  ghost predicate SegmentsOfLength(segs: seq<Spectrum>, n: nat)
  {
    forall i :: 0 <= i < |segs| ==> |segs[i].freqs| == n && |segs[i].psd| == n
  }

  lemma RowsWellFormed(num: Numerics, segs: seq<Spectrum>, numSteps: nat, n: nat)
    requires n > 0 && numSteps >= 1 && SegmentsOfLength(segs, n)
    ensures forall i :: 0 <= i < numSteps ==> |PsdRows(segs, numSteps, n)[i]| > 0
    ensures forall i :: 0 <= i < numSteps ==> |FreqRows(segs, numSteps, n)[i]| == n
    ensures GainCorrections(num, PsdRows(segs, numSteps, n)).Ok?
    ensures WellFormed(PsdRows(segs, numSteps, n), FreqRows(segs, numSteps, n),
                       GainCorrections(num, PsdRows(segs, numSteps, n)).value)
  {
  }

  /** The whole sweep as a value: the errors the source raises (ZeroDivisionError for a
      zero step, ValueError for a negative row count or a short capture, TypeError for a
      missing capture, IndexError when there are no rows), else the stitched, smoothed spectrum. */
  function StitchedSweep(num: Numerics, capture: (nat, int) -> Option<seq<Complex>>, cfg: ScanConfig,
                         rate: int, n: nat): (r: Result<Spectrum>)
    requires n > 0
    ensures cfg.step == 0 ==> r == Err(ZeroDivisionError)
    ensures cfg.step != 0 && NumSteps(cfg) < 0 ==> r == Err(ValueError)
    ensures cfg.step != 0 && NumSteps(cfg) == 0 ==> r == Err(IndexError)
    ensures r.Ok? ==> |r.value.freqs| == |r.value.psd|
    ensures r.Ok? ==> n <= |r.value.freqs| <= NumSteps(cfg) * n
    ensures cfg.step != 0 && NumSteps(cfg) >= 1 ==>
      (r.Ok? <==> forall i :: 0 <= i < Min(|Centers(cfg)|, NumSteps(cfg)) ==>
        ProcessSegment(num, capture(i, Centers(cfg)[i]), Centers(cfg)[i], rate, n).Ok?)
    ensures cfg.step != 0 && NumSteps(cfg) >= 1 && r.Err? ==>
      exists j :: 0 <= j < Min(|Centers(cfg)|, NumSteps(cfg)) && FirstFailure(num, capture, Centers(cfg), rate, n, j, r.error)
  {
    if cfg.step == 0 then Err(ZeroDivisionError)
    else
      var numSteps := NumSteps(cfg);
      if numSteps < 0 then Err(ValueError)
      else
        var centers := Centers(cfg);
        var visited := Min(|centers|, numSteps);
        CollectSegmentsOutcome(num, capture, centers, rate, n, visited);
        match CollectSegments(num, capture, centers, rate, n, visited)
        case Err(e) => Err(e)
        case Ok(segs) =>
          if numSteps == 0 then Err(IndexError) else Ok(StitchRows(num, segs, numSteps, n))
  }

  /** Gain-correct, stitch and smooth the numSteps rows left by the loop. */
  function StitchRows(num: Numerics, segs: seq<Spectrum>, numSteps: nat, n: nat): (r: Spectrum)
    requires n > 0 && numSteps >= 1 && SegmentsOfLength(segs, n)
    ensures |r.freqs| == |r.psd|
    ensures n <= |r.freqs| <= numSteps * n
    ensures |segs| > 0 ==> r.freqs[..n] == segs[0].freqs
  {
    var psds := PsdRows(segs, numSteps, n);
    var freqs := FreqRows(segs, numSteps, n);
    RowsWellFormed(num, segs, numSteps, n);
    var gains := GainCorrections(num, psds).value;
    var stitched := StitchPrefix(psds, freqs, gains, numSteps);
    StitchedShape(psds, freqs, gains, numSteps, n);
    Spectrum(stitched.freqs, ApplyFinalSmoothing(stitched.psd, DefaultKernelSize))
  }

  /** Stitching m rows of n bins each yields between n and m * n bins, starting with the
      first row's axis. */
  lemma StitchedShape(psds: seq<seq<real>>, freqs: seq<seq<real>>, gains: seq<real>, m: nat, n: nat)
    requires WellFormed(psds, freqs, gains) && 1 <= m <= |psds|
    requires forall i :: 0 <= i < |freqs| ==> |freqs[i]| == n
    ensures n <= |StitchPrefix(psds, freqs, gains, m).freqs| <= m * n
    ensures StitchPrefix(psds, freqs, gains, m).freqs[..n] == freqs[0]
  {
    RowBins(freqs, m, n);
  }

  lemma {:induction false} RowBins(rows: seq<seq<real>>, m: nat, n: nat)
    requires m <= |rows| && forall i :: 0 <= i < |rows| ==> |rows[i]| == n
    ensures BinsUpTo(rows, m) == m * n
  {
    if m > 0 {
      RowBins(rows, m - 1, n);
    }
  }

  /** A successful sweep with at least one center begins with the first segment's axis,
      `start - rate // 2 + k * rate / n`, unchanged. */
  lemma SweepStartsWithFirstAxis(num: Numerics, capture: (nat, int) -> Option<seq<Complex>>, cfg: ScanConfig,
                                 rate: int, n: nat)
    requires n > 0 && cfg.step != 0 && |Centers(cfg)| > 0
    requires StitchedSweep(num, capture, cfg, rate, n).Ok?
    ensures StitchedSweep(num, capture, cfg, rate, n).value.freqs[..n] == LinearAxis(cfg.start, rate, n)
  {
    var centers := Centers(cfg);
    var numSteps := NumSteps(cfg);
    CentersWithinNumSteps(cfg);
    var segs := CollectSegments(num, capture, centers, rate, n, |centers|).value;
    assert Ok(segs[0]) == ProcessSegment(num, capture(0, centers[0]), centers[0], rate, n);
    assert centers[0] == cfg.start;
  }

  /** An end below start by less than one step still gives num_steps = 1 but no center:
      the sweep stitches the single all-zero preallocated row. */
  lemma InvertedRangeGivesZeroRow(num: Numerics, capture: (nat, int) -> Option<seq<Complex>>, cfg: ScanConfig,
                                  rate: int, n: nat)
    requires n > 0 && cfg.step > 0 && cfg.end < cfg.start && cfg.start - cfg.end < cfg.step
    ensures NumSteps(cfg) == 1 && Centers(cfg) == []
    ensures StitchedSweep(num, capture, cfg, rate, n) == Ok(Spectrum(Zeros(n), ApplyFinalSmoothing(Zeros(n), DefaultKernelSize)))
  {
    InvertedRangeHasOneStep(cfg);
    var segs: seq<Spectrum> := [];
    assert PsdRows(segs, 1, n) == [Zeros(n)];
    assert FreqRows(segs, 1, n) == [Zeros(n)];
  }

  /** The arithmetic of the inverted range: (end - start) / step lies in (-1, 0), so it
      truncates to 0, and range(start, end + 1, step) is empty. */
  lemma InvertedRangeHasOneStep(cfg: ScanConfig)
    requires cfg.step > 0 && cfg.end < cfg.start && cfg.start - cfg.end < cfg.step
    ensures NumSteps(cfg) == 1 && Centers(cfg) == []
  {
    var x := (cfg.end - cfg.start) as real / cfg.step as real;
    assert -1.0 < x < 0.0 by {
      BelowQuotient(0, cfg.step, cfg.start - cfg.end);
      assert (cfg.start - cfg.end) as real < cfg.step as real;
      assert (cfg.start - cfg.end) as real / cfg.step as real < 1.0;
      assert x == -((cfg.start - cfg.end) as real / cfg.step as real);
    }
    assert Trunc(x) == 0;
  }

  /** Once a capture fails, the sweep's outcome is that failure. */
  lemma {:induction false} CollectFailurePersists(num: Numerics, capture: (nat, int) -> Option<seq<Complex>>,
                                                  centers: seq<int>, rate: int, n: nat, k: nat, m: nat)
    requires n > 0 && k <= m <= |centers|
    requires CollectSegments(num, capture, centers, rate, n, k).Err?
    ensures CollectSegments(num, capture, centers, rate, n, m) == CollectSegments(num, capture, centers, rate, n, k)
    decreases m - k
  {
    if k < m {
      CollectFailurePersists(num, capture, centers, rate, n, k, m - 1);
    }
  }

  lemma RowsAppend(segs: seq<Spectrum>, seg: Spectrum, numSteps: nat, n: nat)
    requires |segs| < numSteps
    ensures PsdRows(segs + [seg], numSteps, n) == PsdRows(segs, numSteps, n)[|segs| := seg.psd]
    ensures FreqRows(segs + [seg], numSteps, n) == FreqRows(segs, numSteps, n)[|segs| := seg.freqs]
  {
  }

  /** Capture, stitch and smooth a whole sweep over fresh preallocated buffers. */
  method SweepAndStitch(num: Numerics, capture: (nat, int) -> Option<seq<Complex>>, cfg: ScanConfig,
                        rate: int, fftSize: nat) returns (r: Result<Spectrum>)
    requires fftSize > 0
    ensures r == StitchedSweep(num, capture, cfg, rate, fftSize)
  {
    if cfg.step == 0 {
      return Err(ZeroDivisionError);
    }
    var numSteps := NumSteps(cfg);
    if numSteps < 0 {
      return Err(ValueError);
    }
    var arrays := new ScanArrays(num, numSteps, fftSize);
    var centers := Centers(cfg);
    var failure;
    ghost var segs;
    failure, segs := CollectInto(arrays, capture, centers, rate);
    if failure.Some? {
      return Err(failure.value);
    }
    if numSteps == 0 {
      return Err(IndexError);
    }
    var spectrum := StitchCollected(num, arrays.segments[..], arrays.freqArrays[..], segs, numSteps, fftSize);
    r := Ok(spectrum);
  }

  /** The sweep loop: capture and process each center into row i of the preallocated
      tables, stopping at num_steps rows or at the first failure. */
  method CollectInto(arrays: ScanArrays, capture: (nat, int) -> Option<seq<Complex>>, centers: seq<int>, rate: int)
    returns (failure: Option<Error>, ghost segs: seq<Spectrum>)
    requires arrays.Valid() && arrays.fftSize > 0
    requires arrays.segments[..] == PsdRows([], arrays.numSteps, arrays.fftSize)
    requires arrays.freqArrays[..] == FreqRows([], arrays.numSteps, arrays.fftSize)
    modifies arrays, arrays.iqBuffer, arrays.windowed, arrays.fftResult, arrays.psd, arrays.segments, arrays.freqArrays
    ensures arrays.Valid()
    ensures var collected := CollectSegments(arrays.num, capture, centers, rate, arrays.fftSize,
                                             Min(|centers|, arrays.numSteps));
      && (failure.Some? ==> collected == Err(failure.value))
      && (failure.None? ==> collected == Ok(segs))
    ensures failure.None? ==> SegmentsOfLength(segs, arrays.fftSize)
    ensures failure.None? ==> arrays.segments[..] == PsdRows(segs, arrays.numSteps, arrays.fftSize)
    ensures failure.None? ==> arrays.freqArrays[..] == FreqRows(segs, arrays.numSteps, arrays.fftSize)
  {
    var num := arrays.num;
    var numSteps := arrays.numSteps;
    var fftSize := arrays.fftSize;
    segs := [];
    var i := 0;
    while i < |centers|
      invariant 0 <= i <= |centers| && i <= numSteps
      invariant arrays.Valid()
      invariant arrays.psd == old(arrays.psd) || fresh(arrays.psd)
      invariant CollectSegments(num, capture, centers, rate, fftSize, i) == Ok(segs)
      invariant arrays.segments[..] == PsdRows(segs, numSteps, fftSize)
      invariant arrays.freqArrays[..] == FreqRows(segs, numSteps, fftSize)
      invariant SegmentsOfLength(segs, fftSize) && |segs| == i
      decreases |centers| - i
    {
      if i >= numSteps {
        break;
      }
      var seg := arrays.CaptureAndProcessSegment(capture(i, centers[i]), centers[i], rate);
      if seg.Err? {
        CollectFailurePersists(num, capture, centers, rate, fftSize, i + 1, Min(|centers|, numSteps));
        return Some(seg.error), segs;
      }
      RowsAppend(segs, seg.value, numSteps, fftSize);
      arrays.StoreSegment(i, seg.value);
      segs := segs + [seg.value];
      i := i + 1;
    }
    assert i == Min(|centers|, numSteps);
    failure := None;
  }

  /** The steps after the loop: gain corrections, stitching, smoothing. */
  method StitchCollected(num: Numerics, psds: seq<seq<real>>, freqs: seq<seq<real>>, ghost segs: seq<Spectrum>,
                         numSteps: nat, n: nat) returns (r: Spectrum)
    requires n > 0 && numSteps >= 1 && SegmentsOfLength(segs, n)
    requires psds == PsdRows(segs, numSteps, n) && freqs == FreqRows(segs, numSteps, n)
    ensures r == StitchRows(num, segs, numSteps, n)
  {
    RowsWellFormed(num, segs, numSteps, n);
    var gains := CalculateGainCorrections(num, psds);
    var stitched := StitchSegmentsWithOverlapHandling(psds, freqs, gains.value);
    r := Spectrum(stitched.freqs, ApplyFinalSmoothing(stitched.psd, DefaultKernelSize));
  }

  /** `scan_and_stitch_spectrum`: a failed connection or configuration gives empty arrays;
      a failure during the sweep propagates to the caller. */
  method ScanAndStitchSpectrum(connected: bool, configured: bool, num: Numerics,
                               capture: (nat, int) -> Option<seq<Complex>>, cfg: ScanConfig,
                               rate: int, fftSize: nat) returns (r: Result<Spectrum>)
    requires fftSize > 0
    ensures !connected || !configured ==> r == Ok(Spectrum([], []))
    ensures connected && configured ==> r == StitchedSweep(num, capture, cfg, rate, fftSize)
  {
    if !connected {
      return Ok(Spectrum([], []));
    }
    if !configured {
      return Ok(Spectrum([], []));
    }
    r := SweepAndStitch(num, capture, cfg, rate, fftSize);
  }

  /** `scan_and_stitch_spectrum_with_connection`: no connection, or any failure during
      the sweep, gives empty arrays. */
  method ScanAndStitchSpectrumWithConnection(connected: bool, num: Numerics,
                                             capture: (nat, int) -> Option<seq<Complex>>, cfg: ScanConfig,
                                             rate: int, fftSize: nat) returns (r: Spectrum)
    requires fftSize > 0
    ensures !connected ==> r == Spectrum([], [])
    ensures connected && StitchedSweep(num, capture, cfg, rate, fftSize).Err? ==> r == Spectrum([], [])
    ensures connected && StitchedSweep(num, capture, cfg, rate, fftSize).Ok? ==>
      r == StitchedSweep(num, capture, cfg, rate, fftSize).value
  {
    if !connected {
      return Spectrum([], []);
    }
    var result := SweepAndStitch(num, capture, cfg, rate, fftSize);
    if result.Err? {
      return Spectrum([], []);
    }
    r := result.value;
  }
}
