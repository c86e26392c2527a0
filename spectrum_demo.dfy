// The single-frequency processor of the demo server: one FFT of a capture at a fixed
// center, reported in dBm with its strongest bin, and a center that can be retuned.

module SpectrumDemo {
  import opened Signal
  import Sweep

  /** `30 - 10*log10(50)`: watts to milliwatts and a 50-ohm load, added to every bin. */
  function DbmOffset(num: Numerics): real
  {
    30.0 - 10.0 * num.log10(50.0)
  }

  /** The PSD the processor returns for a capture: the samples fitted to n, the normalised
      periodogram with zero frequency moved to the middle, floored at 1e-12, in dB and moved
      to dBm. Output bin k holds transform bin (k + n - n // 2) % n. */
  function DemoSpectrum(num: Numerics, iq: seq<Complex>, rate: int, n: nat): (r: seq<real>)
    requires n > 0
    ensures |r| == n
    ensures forall k :: 0 <= k < n ==>
      r[k] == PowerDb(num, Periodogram(num, FitLength(iq, n), rate)[(k + n - n / 2) % n]) + DbmOffset(num)
  {
    var unshifted := Periodogram(num, FitLength(iq, n), rate);
    var power := FftShift(unshifted);
    FftShiftAt(unshifted);
    seq(n, k requires 0 <= k < n => PowerDb(num, power[k]) + DbmOffset(num))
  }

  /** For a capture of exactly n samples the processor's PSD is the sweep's segment PSD of
      the same capture, rotated by the fftshift and raised by the dBm offset. */
  lemma DemoIsShiftedSegmentInDbm(num: Numerics, iq: seq<Complex>, center: int, rate: int, n: nat)
    requires n > 0 && |iq| == n
    ensures Sweep.ProcessSegment(num, Some(iq), center, rate, n).Ok?
    ensures forall k :: 0 <= k < n ==>
      DemoSpectrum(num, iq, rate, n)[k] ==
      Sweep.ProcessSegment(num, Some(iq), center, rate, n).value.psd[(k + n - n / 2) % n] + DbmOffset(num)
  {
    assert FitLength(iq, n) == iq;
    assert Sweep.BufferFill(iq, n) == Ok(iq) by {
      assert iq[..Min(n, |iq|)] == iq;
    }
    var power := Periodogram(num, iq, rate);
    var seg := Sweep.ProcessSegment(num, Some(iq), center, rate, n).value;
    assert seg.psd == PowerDbAll(num, power);
    forall k | 0 <= k < n
      ensures DemoSpectrum(num, iq, rate, n)[k] == seg.psd[(k + n - n / 2) % n] + DbmOffset(num)
    {
      var j := (k + n - n / 2) % n;
      assert seg.psd[j] == PowerDb(num, power[j]);
    }
  }

  /** Samples past the first n are ignored: a long capture gives the PSD of its prefix. */
  lemma LongCaptureUsesPrefix(num: Numerics, iq: seq<Complex>, rate: int, n: nat)
    requires n > 0 && |iq| > n
    ensures DemoSpectrum(num, iq, rate, n) == DemoSpectrum(num, iq[..n], rate, n)
  {
    assert FitLength(iq, n) == FitLength(iq[..n], n);
  }

  /** A short capture is zero-padded at the tail: appending zero samples up to n changes
      nothing. */
  lemma ShortCaptureIsZeroPadded(num: Numerics, iq: seq<Complex>, rate: int, n: nat)
    requires n > 0 && |iq| < n
    ensures DemoSpectrum(num, iq, rate, n) == DemoSpectrum(num, iq + [ZeroSample], rate, n)
  {
    var a := FitLength(iq, n);
    var b := FitLength(iq + [ZeroSample], n);
    assert forall k :: 0 <= k < n ==> a[k] == b[k];
    assert a == b;
  }

  /** Every bin whose power is at or below the 1e-12 floor reads the same dBm value. */
  lemma FlooredBinsReadTheFloor(num: Numerics, iq: seq<Complex>, rate: int, n: nat, k: nat)
    requires n > 0 && k < n
    requires Periodogram(num, FitLength(iq, n), rate)[(k + n - n / 2) % n] <= 0.000000000001
    ensures DemoSpectrum(num, iq, rate, n)[k] == 10.0 * num.log10(0.000000000001) + DbmOffset(num)
  {
  }

  /** `argmax`: the first index holding the largest value. */
  function FirstArgMax(s: seq<real>): (i: nat)
    requires |s| > 0
    ensures i < |s|
    ensures forall k :: 0 <= k < |s| ==> s[k] <= s[i]
    ensures forall k :: 0 <= k < i ==> s[k] < s[i]
  {
    if |s| == 1 then 0
    else
      var j := FirstArgMax(s[..|s| - 1]);
      assert forall k :: 0 <= k < |s| - 1 ==> s[..|s| - 1][k] == s[k];
      if s[|s| - 1] > s[j] then |s| - 1 else j
  }

  /** `a.copy()`: a fresh array with the same contents. */
  method CopyOf(a: array<real>) returns (b: array<real>)
    ensures fresh(b) && b[..] == a[..]
  {
    b := new real[a.Length](k requires 0 <= k < a.Length reads a => a[k]);
  }

  /** The processor: its tuning, its frequency axis and its scratch buffers. */
  class SpectrumProcessor {
    const num: Numerics
    const fftSize: nat
    const sampleRate: int
    var centerFrequency: int
    /** Rebound to a fresh array on every retune. */
    var frequencies: array<real>
    const window: array<real>
    const iqBuffer: array<Complex>
    const windowed: array<Complex>
    /** Rebound to a fresh array by the fftshift. */
    var fftResult: array<Complex>
    /** Rebound to a fresh array by the clamp and the dBm conversion. */
    var psd: array<real>

    ghost predicate Valid()
      reads this, frequencies, window
    {
      && fftSize > 0
      && frequencies.Length == fftSize && window.Length == fftSize && iqBuffer.Length == fftSize
      && windowed.Length == fftSize && fftResult.Length == fftSize && psd.Length == fftSize
      && frequencies != window && psd != frequencies && psd != window
      && frequencies[..] == LinearAxis(centerFrequency, sampleRate, fftSize)
      && window[..] == HannWindow(num, fftSize)
    }

    /** `frequencies = arange(fft_size) * (rate / fft_size) + (center - rate // 2)`, the Hann
        window and zeroed buffers. */
    constructor (num: Numerics, fftSize: nat, sampleRate: int, centerFrequency: int)
      requires fftSize > 0
      ensures Valid()
      ensures this.num == num && this.fftSize == fftSize && this.sampleRate == sampleRate
      ensures this.centerFrequency == centerFrequency
      ensures fresh(frequencies) && fresh(window) && fresh(iqBuffer) && fresh(windowed)
      ensures fresh(fftResult) && fresh(psd)
      ensures forall k :: 0 <= k < fftSize ==> iqBuffer[k] == ZeroSample && windowed[k] == ZeroSample
      ensures forall k :: 0 <= k < fftSize ==> fftResult[k] == ZeroSample
      ensures psd[..] == Zeros(fftSize)
    {
      this.num := num;
      this.fftSize := fftSize;
      this.sampleRate := sampleRate;
      this.centerFrequency := centerFrequency;
      var step := sampleRate as real / fftSize as real;
      var start := centerFrequency - sampleRate / 2;
      frequencies := new real[fftSize](k => k as real * step + start as real);
      window := new real[fftSize](k => num.hann(k, fftSize));
      iqBuffer := new Complex[fftSize](_ => ZeroSample);
      windowed := new Complex[fftSize](_ => ZeroSample);
      fftResult := new Complex[fftSize](_ => ZeroSample);
      psd := new real[fftSize](_ => 0.0);
      new;
      assert frequencies[..] == LinearAxis(centerFrequency, sampleRate, fftSize);
      assert psd[..] == Zeros(fftSize);
    }

    /** `process_fft`: fit the capture to fft_size, window, transform, shift, square,
        normalise, floor at 1e-12, convert to dBm, and report fresh copies of the axis and
        the PSD together with the PSD at its first maximum. */
    method ProcessFft(iq: seq<Complex>) returns (freqsOut: array<real>, psdOut: array<real>, peakRssi: real)
      requires Valid()
      modifies this, iqBuffer, windowed, fftResult, psd
      ensures Valid()
      ensures centerFrequency == old(centerFrequency) && frequencies == old(frequencies)
      ensures fresh(freqsOut) && fresh(psdOut)
      ensures freqsOut[..] == LinearAxis(centerFrequency, sampleRate, fftSize)
      ensures psdOut[..] == psd[..] == DemoSpectrum(num, iq, sampleRate, fftSize)
      ensures peakRssi == psdOut[FirstArgMax(psdOut[..])]
    {
      ComputePsd(iq);
      var peakIdx := FirstArgMax(psd[..]);
      peakRssi := psd[peakIdx];
      freqsOut := CopyOf(frequencies);
      psdOut := CopyOf(psd);
    }

    /** The processing steps of `process_fft` up to the dBm PSD in the psd buffer. */
    method ComputePsd(iq: seq<Complex>)
      requires Valid()
      modifies this, iqBuffer, windowed, fftResult, psd
      ensures Valid() && fresh(psd)
      ensures centerFrequency == old(centerFrequency) && frequencies == old(frequencies)
      ensures psd[..] == DemoSpectrum(num, iq, sampleRate, fftSize)
    {
      var n := fftSize;
      var samples := iq;
      if |iq| > n {
        samples := iq[..n];
      } else if |iq| < n {
        samples := iq + seq(n - |iq|, _ => ZeroSample);
      }
      assert samples == FitLength(iq, n);
      TransformInto(samples);
      ShiftSpectrum();
      PowerInto(samples);
      ToDbm();
      ghost var expected := DemoSpectrum(num, iq, sampleRate, n);
      assert forall k :: 0 <= k < n ==> psd[k] == expected[k];
      assert psd[..] == expected;
    }

    /** `iq_buffer[:] = samples`, `windowed[:] = iq_buffer * window`, `fft_result[:] = fft(windowed)`. */
    method TransformInto(samples: seq<Complex>)
      requires Valid() && |samples| == fftSize
      modifies iqBuffer, windowed, fftResult
      ensures forall k :: 0 <= k < fftSize ==> fftResult[k] == num.dft(Windowed(num, samples), k)
    {
      forall k | 0 <= k < fftSize {
        iqBuffer[k] := samples[k];
      }
      forall k | 0 <= k < fftSize {
        windowed[k] := Scaled(iqBuffer[k], window[k]);
      }
      var x := windowed[..];
      assert x == Windowed(num, samples);
      forall k | 0 <= k < fftSize {
        fftResult[k] := num.dft(x, k);
      }
    }

    /** `fft_result = fftshift(fft_result)`: a fresh array, bin i taken from (i + n - n // 2) % n. */
    method ShiftSpectrum()
      requires Valid()
      modifies this
      ensures Valid() && fresh(fftResult)
      ensures centerFrequency == old(centerFrequency) && frequencies == old(frequencies) && psd == old(psd)
      ensures forall i :: 0 <= i < fftSize ==> fftResult[i] == old(fftResult[(i + fftSize - fftSize / 2) % fftSize])
    {
      var n := fftSize;
      var spectrum := fftResult[..];
      fftResult := new Complex[n](i requires 0 <= i < n => spectrum[(i + n - n / 2) % n]);
    }

    /** `psd[:] = abs(fft_result) ** 2; psd /= rate * sum(window)`: the periodogram of the
        samples, in shifted order. */
    method PowerInto(ghost samples: seq<Complex>)
      requires Valid() && |samples| == fftSize
      requires forall i :: 0 <= i < fftSize ==>
        fftResult[i] == num.dft(Windowed(num, samples), (i + fftSize - fftSize / 2) % fftSize)
      modifies psd
      ensures forall k :: 0 <= k < fftSize ==>
        psd[k] == Periodogram(num, samples, sampleRate)[(k + fftSize - fftSize / 2) % fftSize]
    {
      var n := fftSize;
      forall k | 0 <= k < n {
        psd[k] := SquaredMagnitude(num, fftResult[k]);
      }
      assert window[..] == HannWindow(num, |samples|);
      var norm := sampleRate as real * Sum(window[..]);
      forall k | 0 <= k < n {
        psd[k] := Divide(num, psd[k], norm);
      }
      ghost var power := Periodogram(num, samples, sampleRate);
      assert norm == PsdScale(num, n, sampleRate);
      forall k | 0 <= k < n ensures psd[k] == power[(k + n - n / 2) % n] {
        var j := (k + n - n / 2) % n;
        assert power[j] == Divide(num, SquaredMagnitude(num, num.dft(Windowed(num, samples), j)), norm);
      }
    }

    /** `psd = maximum(psd, 1e-12)`, then `psd = 10*log10(psd) + 30 - 10*log10(50)`: two
        fresh arrays. */
    method ToDbm()
      requires Valid()
      modifies this
      ensures Valid() && fresh(psd)
      ensures centerFrequency == old(centerFrequency) && frequencies == old(frequencies)
      ensures forall k :: 0 <= k < fftSize ==> psd[k] == PowerDb(num, old(psd[k])) + DbmOffset(num)
    {
      var n := fftSize;
      var normalised := psd[..];
      psd := new real[n](k requires 0 <= k < n => MaxReal(normalised[k], 0.000000000001));
      var floored := psd[..];
      psd := new real[n](k requires 0 <= k < n => 10.0 * num.log10(floored[k]) + 30.0 - 10.0 * num.log10(50.0));
    }

    /** `get_frequency_range`: the first and last entries of the axis, half the rate below
        the center and (n - 1) steps of rate / n above that. */
    function GetFrequencyRange(): (r: (real, real))
      reads this, frequencies, window
      requires Valid()
      ensures r.0 == (centerFrequency - sampleRate / 2) as real
      ensures r.1 == r.0 + (fftSize - 1) as real * (sampleRate as real / fftSize as real)
      ensures sampleRate > 0 ==> r.0 <= r.1 < (centerFrequency - sampleRate / 2 + sampleRate) as real
    {
      (frequencies[0], frequencies[fftSize - 1])
    }

    /** `get_center_frequency`: the last center set, never below the axis' first entry for a
        non-negative rate. */
    function GetCenterFrequency(): (r: int)
      reads this, frequencies, window
      requires Valid()
      ensures r == centerFrequency
      ensures sampleRate >= 0 ==> frequencies[0] <= r as real
    {
      centerFrequency
    }

    /** `set_center_frequency`: the new center and a fresh axis around it; the size, the
        rate and the buffers are untouched. */
    method SetCenterFrequency(centerFreq: int)
      requires Valid()
      modifies this
      ensures Valid()
      ensures centerFrequency == centerFreq && fresh(frequencies)
      ensures psd == old(psd) && fftResult == old(fftResult)
    {
      centerFrequency := centerFreq;
      var step := sampleRate as real / fftSize as real;
      var start := centerFreq - sampleRate / 2;
      frequencies := new real[fftSize](k => k as real * step + start as real);
      assert frequencies[..] == LinearAxis(centerFreq, sampleRate, fftSize);
    }
  }

  /** A result taken before a retune keeps its values: the returned arrays are copies, and
      the retune moves only the processor's own axis. */
  method ProcessThenRetune(p: SpectrumProcessor, iq: seq<Complex>, newCenter: int)
    returns (freqs: array<real>, spectrum: array<real>, peakRssi: real)
    requires p.Valid()
    modifies p, p.iqBuffer, p.windowed, p.fftResult, p.psd
    ensures p.Valid() && p.centerFrequency == newCenter
    ensures p.frequencies[..] == LinearAxis(newCenter, p.sampleRate, p.fftSize)
    ensures freqs[..] == LinearAxis(old(p.centerFrequency), p.sampleRate, p.fftSize)
    ensures spectrum[..] == DemoSpectrum(p.num, iq, p.sampleRate, p.fftSize)
    ensures peakRssi == spectrum[FirstArgMax(spectrum[..])]
  {
    freqs, spectrum, peakRssi := p.ProcessFft(iq);
    p.SetCenterFrequency(newCenter);
  }
}
